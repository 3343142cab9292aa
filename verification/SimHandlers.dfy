/** Every handler keeps the invariant: it answers its thread, or leaves it waiting, or stops the simulator. */
module SimHandlers {
  import opened Base
  import opened NetlinkWire
  import opened Sim
  import opened SimInv

  /** Thread `p` has just entered call `c` and is being served. */
  ghost predicate Serving(s: State, p: Pid, c: Call) {
    Active(s, {p}) && p in s.tracees && s.tracees[p].stop == AtEntry(c)
  }

  /** The handler ended as its status code says. */
  ghost predicate ResOk(r: Res, p: Pid) {
    match r.code
    case Success => Active(r.s, {p}) && p in r.s.tracees && Parked(r.s.tracees[p].stop)
    case Failure => Active(r.s, {p}) && p in r.s.tracees && Parked(r.s.tracees[p].stop)
    case Delayed => Inv(r.s)
    case Manual => Inv(r.s)
    case SystemExit => Active(r.s, {p}) && p in r.s.tracees
    case Error => true
  }

  lemma AnsweredOk(s: State, p: Pid, result: Result, code: Code, ans: Answer)
    requires Active(s, {p}) && p in s.tracees && s.tracees[p].stop.AtEntry?
    requires code == Success || code == Failure || code == Error
    ensures ResOk(Answered(s, p, result, code, ans), p)
  {
    FakeKeeps(s, p, result, ans.stray, {p});
  }

  // ---- Changing a socket ---------------------------------------------------------------

  predicate SelectsAccept(ops: seq<SelectOp>, a: AcceptCb) {
    a.SelectAccept? && !Handled(ops, a.op)
  }

  /** Only idle slots are overwritten, and no amount changes that a thread waits for. */
  ghost predicate Harmless(s: State, sid: SockId, k: Sock)
    requires sid < |s.net.socks|
  {
    var was := s.net.socks[sid];
    (k.recv == was.recv || RecvIdle(s.ops, was.recv)) &&
    (k.send == was.send || SendIdle(s.ops, was.send)) &&
    (k.accept == was.accept || AcceptIdle(s.tracees, s.ops, was.accept)) &&
    (k.listens && !was.listens ==> RecvIdle(s.ops, was.recv)) &&
    (was.listens && !k.listens ==> AcceptIdle(s.tracees, s.ops, was.accept)) &&
    ((k.connect == was.connect && k.connecting == was.connecting) || !was.connecting) &&
    (k.rx == was.rx || (RecvIdle(s.ops, was.recv) && !SelectsAccept(s.ops, was.accept))) &&
    (k.tx == was.tx || SendIdle(s.ops, was.send))
  }

  lemma HarmlessContOk(s: State, sid: SockId, k: Sock, q: Pid)
    requires Core(s) && sid < |s.net.socks| && q in s.tracees && Harmless(s, sid, k)
    ensures ContOk(s.events, s.ops, SetSock(s, sid, k).net, q, s.tracees[q])
  {
    assert ContOk(s.events, s.ops, s.net, q, s.tracees[q]);
    var c := s.tracees[q].cont;
    if c.InSelect? {
      HarmlessWatches(s, sid, k, c.op);
    }
  }

  lemma HarmlessWatches(s: State, sid: SockId, k: Sock, op: OpId)
    requires sid < |s.net.socks| && Harmless(s, sid, k) && op < |s.ops| && !s.ops[op].handled
    requires WatchedBy(s.net, op, s.ops[op])
    ensures WatchedBy(SetSock(s, sid, k).net, op, s.ops[op])
  {
    var o, m := s.ops[op], SetSock(s, sid, k).net;
    forall f | f in o.watchR ensures WatchesR(m, op, f) {
      assert WatchesR(s.net, op, f);
    }
    forall f | f in o.watchW ensures WatchesW(m, op, f) {
      assert WatchesW(s.net, op, f);
    }
  }

  /** A harmless change of a socket. */
  lemma SockKeeps(s: State, sid: SockId, k: Sock, who: set<Pid>)
    requires Active(s, who) && sid < |s.net.socks| && Harmless(s, sid, k)
    requires FdOk(SetSock(s, sid, k).net) && SlotsOk(s.tracees, s.ops, s.net.fds, sid, k)
    ensures Active(SetSock(s, sid, k), who)
  {
    var t := SetSock(s, sid, k);
    forall q | q in t.tracees ensures ContOk(t.events, t.ops, t.net, q, t.tracees[q]) {
      HarmlessContOk(s, sid, k, q);
    }
    forall i: nat | i < |t.net.socks| ensures SlotsOk(t.tracees, t.ops, t.net.fds, i, t.net.socks[i]) {
      assert SlotsOk(s.tracees, s.ops, s.net.fds, i, s.net.socks[i]);
    }
  }

  /** The closure that a call leaves in an idle slot of socket `k`. */
  ghost predicate Leaves(s: State, p: Pid, fd: Fd, k: Sock, c: Cont, ans: Answer)
    requires Known(s.net, fd)
  {
    var was := s.net.socks[s.net.fds.sockets[fd]];
    (c == InRecv(fd) && k == was.(recv := ReadWait(p, fd)) && RecvIdle(s.ops, was.recv)) ||
    (c == InAccept(fd) && k == was.(accept := AcceptWait(p, fd)) && AcceptIdle(s.tracees, s.ops, was.accept)) ||
    (c == InConnect(fd) && k == Attempted(was, p, fd, ans) && !was.connecting && Begins(ans) &&
     (was.listens && !ans.stillListens ==> AcceptIdle(s.tracees, s.ops, was.accept)))
  }

  /** A served thread is handed over to an idle slot of the socket behind `fd`. */
  lemma BlockOk(s: State, p: Pid, fd: Fd, k: Sock, c: Cont, ans: Answer)
    requires Active(s, {p}) && p in s.tracees && Known(s.net, fd) && Leaves(s, p, fd, k, c, ans)
    requires ContOk(s.events, s.ops, SetSock(s, s.net.fds.sockets[fd], k).net, p, s.tracees[p].(cont := c))
    ensures Inv(SetCont(SetSock(s, s.net.fds.sockets[fd], k), p, c))
  {
    var sid := s.net.fds.sockets[fd];
    var t := SetCont(SetSock(s, sid, k), p, c);
    Elsewhere(s, p, s.tracees[p].(cont := c));
    forall q | q in t.tracees ensures ContOk(t.events, t.ops, t.net, q, t.tracees[q]) {
      if q != p {
        HarmlessContOk(s, sid, k, q);
      }
    }
    LeftSlots(s, t.tracees, p, fd, k, c, ans);
  }

  lemma LeftSlots(s: State, ts: map<Pid, Tracee>, p: Pid, fd: Fd, k: Sock, c: Cont, ans: Answer)
    requires FdOk(s.net) && SocksOk(ts, s.ops, s.net) && HasCont(ts, p, c) && Known(s.net, fd)
    requires Leaves(s, p, fd, k, c, ans)
    requires var was := s.net.socks[s.net.fds.sockets[fd]];
             (k.accept.SelectAccept? && was.listens && !k.listens ==> Handled(s.ops, k.accept.op)) &&
             (k.listens ==> was.listens)
    ensures SocksOk(ts, s.ops, SetSock(s, s.net.fds.sockets[fd], k).net)
  {
    var sid := s.net.fds.sockets[fd];
    var m := SetSock(s, sid, k).net;
    assert IsFdOf(s.net.fds.sockets, fd, sid);
    forall i: nat | i < |m.socks| ensures SlotsOk(ts, s.ops, m.fds, i, m.socks[i]) {
      assert SlotsOk(ts, s.ops, s.net.fds, i, s.net.socks[i]);
    }
  }

  lemma ReadWaitDry(s: State, sid: SockId)
    requires Core(s) && sid < |s.net.socks|
    ensures s.net.socks[sid].recv.ReadWait? ==> s.net.socks[sid].rx == 0
  {
    var r := s.net.socks[sid].recv;
    assert SlotsOk(s.tracees, s.ops, s.net.fds, sid, s.net.socks[sid]);
    if r.ReadWait? {
      assert ContOk(s.events, s.ops, s.net, r.pid, s.tracees[r.pid]);
    }
  }

  /** Nobody waits for data that are there. */
  lemma RxIdle(s: State, fd: Fd)
    requires Core(s) && Known(s.net, fd) && s.net.socks[s.net.fds.sockets[fd]].rx > 0
    ensures var k := s.net.socks[s.net.fds.sockets[fd]]; RecvIdle(s.ops, k.recv) && !SelectsAccept(s.ops, k.accept)
  {
    var sid := s.net.fds.sockets[fd];
    var k := s.net.socks[sid];
    assert SlotsOk(s.tracees, s.ops, s.net.fds, sid, k);
    ReadWaitDry(s, sid);
    if k.recv.SelectRecv? && !Handled(s.ops, k.recv.op) {
      WatchedNotReady(s, k.recv.op, fd);
    }
    if SelectsAccept(s.ops, k.accept) {
      WatchedNotReady(s, k.accept.op, fd);
    }
  }

  /** What an unanswered select watches is not ready. */
  lemma WatchedNotReady(s: State, op: OpId, f: Fd)
    requires Core(s) && op < |s.ops| && !s.ops[op].handled
    ensures f in s.ops[op].watchR ==> WatchesR(s.net, op, f) && !Readable(s.net, f)
    ensures f in s.ops[op].watchW ==> WatchesW(s.net, op, f) && !Writable(s.net, f)
  {
    assert OpOk(s.tracees, op, s.ops[op]);
    assert ContOk(s.events, s.ops, s.net, s.ops[op].pid, s.tracees[s.ops[op].pid]);
  }

  /** Nobody waits for send space that is there. */
  lemma TxIdle(s: State, fd: Fd)
    requires Core(s) && Known(s.net, fd) && s.net.socks[s.net.fds.sockets[fd]].tx > 0
    ensures SendIdle(s.ops, s.net.socks[s.net.fds.sockets[fd]].send)
  {
    var sid := s.net.fds.sockets[fd];
    var c := s.net.socks[sid].send;
    assert SlotsOk(s.tracees, s.ops, s.net.fds, sid, s.net.socks[sid]);
    if !SendIdle(s.ops, c) {
      WatchedNotReady(s, c.op, fd);
    }
  }

  // ---- Changing what a descriptor is -----------------------------------------------------

  lemma WaitedIsOpen(s: State, q: Pid, f: Fd)
    requires TraceesOk(s) && q in s.tracees && f in WaitFds(s.ops, s.tracees[q].cont)
    ensures f in s.net.fds.sockets || f in s.net.fds.netlinks
  {
    var c := s.tracees[q].cont;
    assert ContOk(s.events, s.ops, s.net, q, s.tracees[q]);
    if c.InSelect? {
      var o := s.ops[c.op];
      if f in o.watchR {
        assert WatchesR(s.net, c.op, f);
      } else {
        assert WatchesW(s.net, c.op, f);
      }
    }
  }

  /** A change that leaves every open descriptor but `fd` alone, when nobody waits on `fd`. */
  lemma OneFdChange(s: State, t: State, fd: Fd, who: set<Pid>)
    requires Active(s, who) && t == s.(net := t.net, table := t.table) && Unwaited(s, {fd})
    requires FdOk(t.net) && SocksOk(s.tracees, s.ops, t.net) && NlsOk(s.ops, t.net)
    requires forall f :: f != fd && (f in s.net.fds.sockets || f in s.net.fds.netlinks) ==> SameFor(s.net, t.net, f)
    ensures Active(t, who)
  {
    forall q, f | q in s.tracees && f in WaitFds(s.ops, s.tracees[q].cont) ensures SameFor(s.net, t.net, f) {
      WaitedIsOpen(s, q, f);
      assert f != fd;
    }
    NetChange(s, t, who);
  }

  lemma KnownFd(s: State, fd: Fd)
    requires FdOk(s.net)
    ensures fd in s.net.fds.sockets ==> Known(s.net, fd)
    ensures fd in s.net.fds.netlinks ==> KnownNl(s.net, fd)
    ensures fd in s.net.fds.sockets ==> SocksOk(s.tracees, s.ops, s.net) ==>
              SlotsOk(s.tracees, s.ops, s.net.fds, s.net.fds.sockets[fd], s.net.socks[s.net.fds.sockets[fd]])
  {
  }

  // ---- Receiving -----------------------------------------------------------------------

  /** A receive that would wait for data. */
  predicate ReceiveMustWait(n: Net, fd: Fd) {
    Known(n, fd) && n.socks[n.fds.sockets[fd]].rx == 0 && fd !in n.fds.nonblocking
  }

  /** On a socket that ns-3 listens on no data come. */
  predicate ReadsListener(n: Net, fd: Fd) {
    ReceiveMustWait(n, fd) && n.socks[n.fds.sockets[fd]].listens
  }

  /** A receive that blocks finds the slot idle, and data can come. */
  predicate ReceiveFits(s: State, fd: Fd) {
    ReceiveMustWait(s.net, fd) ==> RecvIdle(s.ops, s.net.socks[s.net.fds.sockets[fd]].recv) && !ReadsListener(s.net, fd)
  }

  lemma DataTaken(s: State, p: Pid, fd: Fd, ans: Answer)
    requires Active(s, {p}) && p in s.tracees && s.tracees[p].stop.AtEntry? && Known(s.net, fd)
    requires s.net.socks[s.net.fds.sockets[fd]].rx > 0
    ensures var sid := s.net.fds.sockets[fd];
            var t := Resume(Fake(s, p, Value(ans.ret), ans.stray), p);
            t.net == s.net && Inv(SetSock(t, sid, s.net.socks[sid].(rx := ans.rxAfter, recv := NoRecv)))
  {
    var sid := s.net.fds.sockets[fd];
    FakeKeeps(s, p, Value(ans.ret), ans.stray, {p});
    ResumeKeeps(Fake(s, p, Value(ans.ret), ans.stray), p, {p});
    assert {p} - {p} == {};
    DataGone(Resume(Fake(s, p, Value(ans.ret), ans.stray), p), fd, ans.rxAfter);
  }

  lemma DataGone(s: State, fd: Fd, rx: nat)
    requires Inv(s) && Known(s.net, fd) && s.net.socks[s.net.fds.sockets[fd]].rx > 0
    ensures var sid := s.net.fds.sockets[fd]; Inv(SetSock(s, sid, s.net.socks[sid].(rx := rx, recv := NoRecv)))
  {
    var sid := s.net.fds.sockets[fd];
    RxIdle(s, fd);
    KnownFd(s, fd);
    SockKeeps(s, sid, s.net.socks[sid].(rx := rx, recv := NoRecv), {});
  }

  lemma ReceiveOk(s: State, p: Pid, c: Call, fd: Fd, again: Code, ans: Answer)
    requires Serving(s, p, c) && (c.Read? || c.RecvFrom?) && c.fd == fd && Known(s.net, fd) && ReceiveFits(s, fd)
    requires again == Success || again == Failure
    ensures ResOk(HandleReceive(s, p, fd, again, ans), p)
  {
    var k := s.net.socks[s.net.fds.sockets[fd]];
    if k.rx > 0 {
      DataTaken(s, p, fd, ans);
    } else if fd in s.net.fds.nonblocking {
      AnsweredOk(s, p, Value(-EWOULDBLOCK), again, ans);
    } else {
      BlockOk(s, p, fd, k.(recv := ReadWait(p, fd)), InRecv(fd), ans);
    }
  }

  lemma ReadOk(s: State, p: Pid, c: Call, ans: Answer)
    requires Serving(s, p, c) && c.Read? && (c.fd in s.net.fds.tcp ==> ReceiveFits(s, c.fd))
    ensures ResOk(HandleRead(s, p, c.fd, c.count, ans), p)
  {
    if !Emulated(s.net.fds, c.fd) {
      AnsweredOk(s, p, Kernel, Success, ans);
    } else if c.fd in s.net.fds.random {
      AnsweredOk(s, p, Value(c.count), Success, ans);
    } else if Known(s.net, c.fd) && c.fd in s.net.fds.tcp {
      ReceiveOk(s, p, c, c.fd, Failure, ans);
    }
  }

  lemma RecvFromOk(s: State, p: Pid, c: Call, ans: Answer)
    requires Serving(s, p, c) && c.RecvFrom? && ReceiveFits(s, c.fd)
    ensures ResOk(HandleRecvFrom(s, p, c.fd, ans), p)
  {
    if Known(s.net, c.fd) {
      ReceiveOk(s, p, c, c.fd, Success, ans);
    }
  }

  // ---- Sending -------------------------------------------------------------------------

  /** Everything but a write that blocks: its callback never resumes the thread. */
  ghost predicate WriteBlocks(n: Net, fd: Fd) {
    fd in n.fds.connected && Known(n, fd) && n.socks[n.fds.sockets[fd]].tx == 0 && fd !in n.fds.nonblocking
  }

  lemma WriteOk(s: State, p: Pid, c: Call, ans: Answer)
    requires Serving(s, p, c) && c.Write? && !WriteBlocks(s.net, c.fd)
    ensures ResOk(HandleWrite(s, p, c.fd, c.count, ans), p)
  {
    if c.fd != 1 && c.fd != 2 && !Emulated(s.net.fds, c.fd) {
      AnsweredOk(s, p, Kernel, Success, ans);
    } else if !Emulated(s.net.fds, c.fd) {
      AnsweredOk(s, p, Value(c.count), Success, ans);
    } else if c.fd in s.net.fds.connected && Known(s.net, c.fd) {
      var sid := s.net.fds.sockets[c.fd];
      var k := s.net.socks[sid];
      if k.tx == 0 {
        AnsweredOk(s, p, Value(-EWOULDBLOCK), Failure, ans);
      } else {
        TxIdle(s, c.fd);
        KnownFd(s, c.fd);
        SockKeeps(s, sid, k.(tx := ans.txAfter), {p});
        AnsweredOk(SetSock(s, sid, k.(tx := ans.txAfter)), p, Value(ans.ret), if ans.ret > 0 then Success else Error,
                   ans);
      }
    }
  }

  // ---- Descriptors ---------------------------------------------------------------------

  /** A change of the descriptor tables around `fd` that moves no socket. */
  lemma TablesChange(s: State, t: FdTable, fd: Fd, who: set<Pid>)
    requires Active(s, who) && Unwaited(s, {fd})
    requires FdOk(s.net.(fds := t))
    requires forall f :: f != fd ==> (f in t.sockets <==> f in s.net.fds.sockets) &&
                                     (f in t.netlinks <==> f in s.net.fds.netlinks) &&
                                     (f in t.fakeAccepted <==> f in s.net.fds.fakeAccepted)
    requires forall f :: f != fd && f in t.sockets ==> t.sockets[f] == s.net.fds.sockets[f]
    requires forall f :: f != fd && f in t.netlinks ==> t.netlinks[f] == s.net.fds.netlinks[f]
    requires fd in t.sockets ==> forall sid: nat :: sid < |s.net.socks| && t.sockets[fd] == sid ==>
                                                      AcceptNames(t.sockets, s.net.socks[sid].accept, sid)
    ensures Active(WithFds(s, t), who)
  {
    var n := WithFds(s, t);
    assert forall f, x :: f != fd ==> (IsFdOf(t.sockets, f, x) <==> IsFdOf(s.net.fds.sockets, f, x));
    assert forall f, x :: f != fd ==> (IsFdOf(t.netlinks, f, x) <==> IsFdOf(s.net.fds.netlinks, f, x));
    forall sid: nat | sid < |n.net.socks| ensures SlotsOk(n.tracees, n.ops, t, sid, n.net.socks[sid]) {
      SlotsAwayFrom(s, t, fd, sid);
    }
    NlsAwayFrom(s, t, fd);
    OneFdChange(s, n, fd, who);
  }

  lemma NlsAwayFrom(s: State, t: FdTable, fd: Fd)
    requires Core(s) && Unwaited(s, {fd})
    requires forall f, x :: f != fd ==> (IsFdOf(t.netlinks, f, x) <==> IsFdOf(s.net.fds.netlinks, f, x))
    ensures NlsOk(s.ops, s.net.(fds := t))
  {
    forall i: nat | i < |s.net.nls| ensures NlOk(s.ops, t.netlinks, i, s.net.nls[i]) {
      assert NlOk(s.ops, s.net.fds.netlinks, i, s.net.nls[i]);
      NlAwayFrom(s, fd, i);
    }
  }

  /** An unanswered select is waited in, so its closures are not about an unwaited descriptor. */
  lemma NotWatched(s: State, fd: Fd, op: OpId)
    requires OpsOk(s) && Unwaited(s, {fd}) && op < |s.ops| && !s.ops[op].handled
    ensures fd !in s.ops[op].watchR && fd !in s.ops[op].watchW
  {
    assert OpOk(s.tracees, op, s.ops[op]);
    assert WaitFds(s.ops, s.tracees[s.ops[op].pid].cont) !! {fd};
  }

  lemma NlAwayFrom(s: State, fd: Fd, i: nat)
    requires Core(s) && Unwaited(s, {fd}) && i < |s.net.nls|
    ensures var c := s.net.nls[i].recv;
            c.SelectNl? ==> c.op < |s.ops| && (!s.ops[c.op].handled ==> c.fd != fd)
  {
    var c := s.net.nls[i].recv;
    assert NlOk(s.ops, s.net.fds.netlinks, i, s.net.nls[i]);
    if c.SelectNl? && !s.ops[c.op].handled {
      NotWatched(s, fd, c.op);
    }
  }

  lemma SlotsAwayFrom(s: State, t: FdTable, fd: Fd, sid: SockId)
    requires Core(s) && Unwaited(s, {fd}) && sid < |s.net.socks|
    requires forall f, x :: f != fd ==> (IsFdOf(t.sockets, f, x) <==> IsFdOf(s.net.fds.sockets, f, x))
    requires IsFdOf(t.sockets, fd, sid) ==> AcceptNames(t.sockets, s.net.socks[sid].accept, sid)
    ensures SlotsOk(s.tracees, s.ops, t, sid, s.net.socks[sid])
  {
    var k := s.net.socks[sid];
    assert SlotsOk(s.tracees, s.ops, s.net.fds, sid, k);
    if k.send.SelectSend? && !s.ops[k.send.op].handled {
      NotWatched(s, fd, k.send.op);
    }
    if k.recv.SelectRecv? && !s.ops[k.recv.op].handled {
      NotWatched(s, fd, k.recv.op);
    }
    if k.accept.SelectAccept? && !s.ops[k.accept.op].handled {
      NotWatched(s, fd, k.accept.op);
    }
    if k.recv.ReadWait? {
      assert WaitFds(s.ops, s.tracees[k.recv.pid].cont) !! {fd};
      assert k.recv.fd in WaitFds(s.ops, s.tracees[k.recv.pid].cont);
    }
    if k.connecting {
      assert WaitFds(s.ops, s.tracees[k.connect.pid].cont) !! {fd};
      assert k.connect.fd in WaitFds(s.ops, s.tracees[k.connect.pid].cont);
    }
  }

  lemma OpenOk(s: State, p: Pid, c: Call, ans: Answer)
    requires Serving(s, p, c) && c.Open?
    ensures ResOk(HandleOpen(s, p, c.random, ans), p)
  {
    if !c.random {
      AnsweredOk(s, p, Kernel, Success, ans);
    } else if s.net.fds.available != {} {
      var fd := Least(s.net.fds.available);
      var t := s.net.fds.(available := s.net.fds.available - {fd}, random := s.net.fds.random + {fd});
      ClosedUnwaited(s, fd);
      TablesChange(s, t, fd, {p});
      AnsweredOk(WithFds(s, t), p, Value(fd), Success, ans);
    }
  }

  /** A descriptor that is not open is waited on by nobody. */
  lemma ClosedUnwaited(s: State, fd: Fd)
    requires Core(s) && fd !in s.net.fds.sockets && fd !in s.net.fds.netlinks
    ensures Unwaited(s, {fd})
  {
    forall q | q in s.tracees ensures WaitFds(s.ops, s.tracees[q].cont) !! {fd} {
      if fd in WaitFds(s.ops, s.tracees[q].cont) {
        WaitedIsOpen(s, q, fd);
        assert false;
      }
    }
  }

  lemma SocketClosedFdOk(n: Net, fd: Fd)
    requires FdOk(n) && fd in n.fds.sockets
    ensures FdOk(n.(fds := SocketClosed(n.fds, fd)))
  {
  }

  lemma SocketClosedActive(s: State, p: Pid, fd: Fd)
    requires Active(s, {p}) && Unwaited(s, {fd}) && fd in s.net.fds.sockets
    ensures Active(CloseSocket(s, fd), {p})
  {
    SocketClosedFdOk(s.net, fd);
    TablesChange(s, SocketClosed(s.net.fds, fd), fd, {p});
    CleanupKeeps(WithFds(s, SocketClosed(s.net.fds, fd)), Later(s.now, 1, 0), s.net.fds.sockets[fd], {p});
  }

  /** Nothing in the slots behind `fd` is still to resume a thread. */
  ghost predicate AllIdle(s: State, fd: Fd) {
    (Known(s.net, fd) ==>
       var k := s.net.socks[s.net.fds.sockets[fd]];
       RecvIdle(s.ops, k.recv) && SendIdle(s.ops, k.send) && AcceptIdle(s.tracees, s.ops, k.accept) && !k.connecting) &&
    (KnownNl(s.net, fd) ==> NlIdle(s.ops, s.net.nls[s.net.fds.netlinks[fd]].recv))
  }

  /** A thread that waits on a descriptor is named by a closure in one of its slots. */
  lemma IdleUnwaited(s: State, fd: Fd)
    requires Core(s) && AllIdle(s, fd)
    ensures Unwaited(s, {fd})
  {
    forall q | q in s.tracees ensures WaitFds(s.ops, s.tracees[q].cont) !! {fd} {
      var c := s.tracees[q].cont;
      assert ContOk(s.events, s.ops, s.net, q, s.tracees[q]);
      if c.InSelect? {
        assert fd in s.ops[c.op].watchR ==> WatchesR(s.net, c.op, fd);
        assert fd in s.ops[c.op].watchW ==> WatchesW(s.net, c.op, fd);
      }
    }
  }

  /** And the other way round. */
  lemma UnwaitedIdle(s: State, fd: Fd)
    requires Core(s) && Unwaited(s, {fd})
    ensures AllIdle(s, fd)
  {
    if Known(s.net, fd) {
      UnwaitedSock(s, fd);
    }
    if KnownNl(s.net, fd) {
      var i := s.net.fds.netlinks[fd];
      assert NlOk(s.ops, s.net.fds.netlinks, i, s.net.nls[i]);
      NlAwayFrom(s, fd, i);
    }
  }

  lemma UnwaitedSock(s: State, fd: Fd)
    requires Core(s) && Unwaited(s, {fd}) && Known(s.net, fd)
    ensures var k := s.net.socks[s.net.fds.sockets[fd]];
            RecvIdle(s.ops, k.recv) && SendIdle(s.ops, k.send) && AcceptIdle(s.tracees, s.ops, k.accept) &&
            !k.connecting
  {
    var k := s.net.socks[s.net.fds.sockets[fd]];
    assert SlotsOk(s.tracees, s.ops, s.net.fds, s.net.fds.sockets[fd], k);
    if k.send.SelectSend? && !s.ops[k.send.op].handled {
      NotWatched(s, fd, k.send.op);
    }
    if k.recv.SelectRecv? && !s.ops[k.recv.op].handled {
      NotWatched(s, fd, k.recv.op);
    }
    if k.accept.SelectAccept? && !s.ops[k.accept.op].handled {
      NotWatched(s, fd, k.accept.op);
    }
    assert IsFdOf(s.net.fds.sockets, fd, s.net.fds.sockets[fd]);
    assert forall q, f :: HasCont(s.tracees, q, InAccept(f)) ==> f in WaitFds(s.ops, s.tracees[q].cont);
  }

  lemma CloseOk(s: State, p: Pid, c: Call, ans: Answer)
    requires Serving(s, p, c) && c.Close? && AllIdle(s, c.fd)
    ensures ResOk(HandleClose(s, p, c.fd, ans), p)
  {
    var fd, t := c.fd, s.net.fds;
    IdleUnwaited(s, fd);
    if !Emulated(t, fd) {
      AnsweredOk(s, p, Kernel, Success, ans);
    } else if fd in t.sockets {
      SocketClosedActive(s, p, fd);
      AnsweredOk(CloseSocket(s, fd), p, Value(0), Success, ans);
    } else {
      OtherClosedActive(s, p, fd);
      AnsweredOk(WithFds(s, if fd in t.netlinks then NetlinkClosed(t, fd) else RandomClosed(t, fd)), p, Value(0),
                 Success, ans);
    }
  }

  lemma OtherClosedActive(s: State, p: Pid, fd: Fd)
    requires Active(s, {p}) && Unwaited(s, {fd}) && fd !in s.net.fds.sockets && Emulated(s.net.fds, fd)
    ensures var t := s.net.fds;
            Active(WithFds(s, if fd in t.netlinks then NetlinkClosed(t, fd) else RandomClosed(t, fd)), {p})
  {
    var t := if fd in s.net.fds.netlinks then NetlinkClosed(s.net.fds, fd) else RandomClosed(s.net.fds, fd);
    assert FdOk(s.net.(fds := t));
    TablesChange(s, t, fd, {p});
  }

  lemma FcntlOk(s: State, p: Pid, c: Call, ans: Answer)
    requires Serving(s, p, c) && c.Fcntl?
    ensures ResOk(HandleFcntl(s, p, c.fd, c.cmd, ans), p)
  {
    var fd, t := c.fd, s.net.fds;
    if !Emulated(t, fd) {
      AnsweredOk(s, p, Kernel, Success, ans);
    } else if (c.cmd.SetFlags? && fd in t.netlinks) || (c.cmd.GetFlags? && fd in t.sockets) {
      AnsweredOk(s, p, Value(0), Success, ans);
    } else if c.cmd.SetFlags? && fd in t.sockets {
      if c.cmd.nonblock {
        NonblockingKeeps(s, fd, {p});
        AnsweredOk(WithFds(s, t.(nonblocking := t.nonblocking + {fd})), p, Value(0), Success, ans);
      } else {
        AnsweredOk(s, p, Value(-1), Failure, ans);
      }
    }
  }

  /** Whether a socket blocks is nobody's business but the next caller's. */
  lemma NonblockingKeeps(s: State, fd: Fd, who: set<Pid>)
    requires Active(s, who) && fd in s.net.fds.sockets
    ensures Active(WithFds(s, s.net.fds.(nonblocking := s.net.fds.nonblocking + {fd})), who)
  {
    var t := WithFds(s, s.net.fds.(nonblocking := s.net.fds.nonblocking + {fd}));
    forall q, f | q in s.tracees && f in WaitFds(s.ops, s.tracees[q].cont) ensures SameFor(s.net, t.net, f) {
    }
    forall i: nat | i < |t.net.socks| ensures SlotsOk(t.tracees, t.ops, t.net.fds, i, t.net.socks[i]) {
      assert SlotsOk(s.tracees, s.ops, s.net.fds, i, s.net.socks[i]);
    }
    NetChange(s, t, who);
  }

  // ---- New sockets ---------------------------------------------------------------------

  /** A socket nothing refers to yet. */
  lemma SpareSocket(s: State, k: Sock, who: set<Pid>)
    requires Active(s, who)
    requires k.accept == NoAccept && k.send == NoSend && k.recv == NoRecv && !k.connecting && !k.listens
    ensures Active(s.(net := s.net.(socks := s.net.socks + [k])), who)
  {
    var m := s.(net := s.net.(socks := s.net.socks + [k]));
    forall i: nat | i < |m.net.socks| ensures SlotsOk(m.tracees, m.ops, m.net.fds, i, m.net.socks[i]) {
      if i < |s.net.socks| {
        assert SlotsOk(s.tracees, s.ops, s.net.fds, i, s.net.socks[i]);
      }
    }
    NetChange(s, m, who);
  }

  /** A descriptor taken from the free ones for the last, still unused socket. */
  lemma NewSocket(s: State, fd: Fd, k: Sock, t: FdTable, who: set<Pid>)
    requires Active(s, who) && fd in s.net.fds.available
    requires t.sockets == s.net.fds.sockets[fd := |s.net.socks|] && t.netlinks == s.net.fds.netlinks
    requires t.fakeAccepted == s.net.fds.fakeAccepted
    requires k.accept == NoAccept && k.send == NoSend && k.recv == NoRecv && !k.connecting && !k.listens
    requires FdOk(s.net.(fds := t, socks := s.net.socks + [k]))
    ensures Active(s.(net := s.net.(fds := t, socks := s.net.socks + [k])), who)
  {
    var m := s.(net := s.net.(socks := s.net.socks + [k]));
    SpareSocket(s, k, who);
    ClosedUnwaited(m, fd);
    TablesChange(m, t, fd, who);
  }

  lemma SocketOk(s: State, p: Pid, c: Call, ans: Answer)
    requires Serving(s, p, c) && c.Socket?
    ensures ResOk(HandleSocket(s, p, c.family, c.kind, c.route, ans), p)
  {
    var n := s.net;
    if c.family == OtherFamily {
      AnsweredOk(s, p, Value(-EAFNOSUPPORT), Failure, ans);
    } else if c.family == Inet && c.kind != Dgram && c.kind != Stream {
      AnsweredOk(s, p, Value(-EPROTONOSUPPORT), Failure, ans);
    } else if c.family == NetlinkFamily && c.kind != Raw && c.kind != Dgram {
      AnsweredOk(s, p, Value(-EPROTOTYPE), Failure, ans);
    } else if c.family == NetlinkFamily && !c.route {
      AnsweredOk(s, p, Value(-EPROTONOSUPPORT), Error, ans);
    } else if n.fds.available != {} {
      if c.family == Inet {
        NewInet(s, c.kind, ans.txAfter, {p});
        AnsweredOk(s.(net := WithSocket(n, c.kind, ans.txAfter)), p, Value(Least(n.fds.available)), Success, ans);
      } else {
        NewNetlink(s, p);
        AnsweredOk(s.(net := WithNetlink(n, p)), p, Value(Least(n.fds.available)), Success, ans);
      }
    }
  }

  lemma NewInet(s: State, kind: SockType, tx: nat, who: set<Pid>)
    requires Active(s, who) && s.net.fds.available != {}
    ensures Active(s.(net := WithSocket(s.net, kind, tx)), who)
  {
    var m := WithSocket(s.net, kind, tx);
    NewSocketFdOk(s.net, kind, tx);
    NewSocket(s, Least(s.net.fds.available), FRESH_SOCK.(tx := tx), m.fds, who);
  }

  lemma NewSocketFdOk(n: Net, kind: SockType, tx: nat)
    requires FdOk(n) && n.fds.available != {}
    ensures FdOk(WithSocket(n, kind, tx))
  {
  }

  lemma NewNetlink(s: State, p: Pid)
    requires Active(s, {p}) && s.net.fds.available != {}
    ensures Active(s.(net := WithNetlink(s.net, p)), {p})
  {
    var n, fd := s.net, Least(s.net.fds.available);
    NewNetlinkFdOk(n, fd, p);
    SpareNetlink(s, p, fd);
    var m := s.(net := n.(nls := n.nls + [Nl(p, [], NoNl)]));
    ClosedUnwaited(m, fd);
    TablesChange(m, WithNetlink(n, p).fds, fd, {p});
  }

  lemma SpareNetlink(s: State, p: Pid, fd: Fd)
    requires Active(s, {p}) && fd in s.net.fds.available
    requires FdOk(s.net.(nls := s.net.nls + [Nl(p, [], NoNl)]))
    ensures Active(s.(net := s.net.(nls := s.net.nls + [Nl(p, [], NoNl)])), {p})
  {
    var m := s.(net := s.net.(nls := s.net.nls + [Nl(p, [], NoNl)]));
    ClosedUnwaited(s, fd);
    forall i: nat | i < |m.net.nls| ensures NlOk(m.ops, m.net.fds.netlinks, i, m.net.nls[i]) {
      if i < |s.net.nls| {
        assert NlOk(s.ops, s.net.fds.netlinks, i, s.net.nls[i]);
      }
    }
    OneFdChange(s, m, fd, {p});
  }

  lemma NewNetlinkFdOk(n: Net, fd: Fd, p: Pid)
    requires FdOk(n) && fd in n.fds.available
    ensures var t := n.fds.(available := n.fds.available - {fd}, netlinks := n.fds.netlinks[fd := |n.nls|]);
            FdOk(n.(nls := n.nls + [Nl(p, [], NoNl)])) && FdOk(n.(fds := t, nls := n.nls + [Nl(p, [], NoNl)]))
  {
  }

  // ---- listen, connect, accept -----------------------------------------------------------

  /** A socket may start to listen unless a thread waits for data on it; that ns-3 refuses harms nobody. */
  predicate ListenFits(s: State, fd: Fd, ans: Answer) {
    fd in s.net.fds.tcp && fd !in s.net.fds.listening && Known(s.net, fd) && ans.ret == 0 ==>
      RecvIdle(s.ops, s.net.socks[s.net.fds.sockets[fd]].recv)
  }

  lemma ListeningFdOk(n: Net, fd: Fd)
    requires FdOk(n) && fd in n.fds.tcp
    ensures FdOk(n.(fds := n.fds.(listening := n.fds.listening + {fd})))
  {
  }

  /** That a descriptor counts as listening is seen by nobody who waits. */
  lemma ListeningKeeps(s: State, fd: Fd, who: set<Pid>)
    requires Active(s, who) && Known(s.net, fd) && fd in s.net.fds.tcp
    ensures Active(WithFds(s, s.net.fds.(listening := s.net.fds.listening + {fd})), who)
  {
    var t := WithFds(s, s.net.fds.(listening := s.net.fds.listening + {fd}));
    ListeningFdOk(s.net, fd);
    forall i: nat | i < |t.net.socks| ensures SlotsOk(t.tracees, t.ops, t.net.fds, i, t.net.socks[i]) {
      assert SlotsOk(s.tracees, s.ops, s.net.fds, i, s.net.socks[i]);
    }
    forall q, f | q in s.tracees && f in WaitFds(s.ops, s.tracees[q].cont) ensures SameFor(s.net, t.net, f) {
    }
    NetChange(s, t, who);
  }

  /** Nobody waits for connections on a socket that does not listen, nor for data on one that does. */
  lemma ListenerIdle(s: State, fd: Fd)
    requires Core(s) && Known(s.net, fd)
    ensures var k := s.net.socks[s.net.fds.sockets[fd]];
            if k.listens then RecvIdle(s.ops, k.recv) else AcceptIdle(s.tracees, s.ops, k.accept)
  {
    var k := s.net.socks[s.net.fds.sockets[fd]];
    assert SlotsOk(s.tracees, s.ops, s.net.fds, s.net.fds.sockets[fd], k);
    assert IsFdOf(s.net.fds.sockets, fd, s.net.fds.sockets[fd]);
    if k.recv.ReadWait? {
      assert ContOk(s.events, s.ops, s.net, k.recv.pid, s.tracees[k.recv.pid]);
    }
    AcceptersListen(s);
  }

  lemma AcceptersListen(s: State)
    requires TraceesOk(s)
    ensures forall q, f :: HasCont(s.tracees, q, InAccept(f)) ==>
                             Known(s.net, f) && s.net.socks[s.net.fds.sockets[f]].listens
  {
    forall q, f | HasCont(s.tracees, q, InAccept(f))
      ensures Known(s.net, f) && s.net.socks[s.net.fds.sockets[f]].listens
    {
      assert ContOk(s.events, s.ops, s.net, q, s.tracees[q]);
    }
  }

  lemma ListenOk(s: State, p: Pid, c: Call, ans: Answer)
    requires Serving(s, p, c) && c.Listen? && ListenFits(s, c.fd, ans)
    ensures ResOk(HandleListen(s, p, c.fd, ans), p)
  {
    var fd, t := c.fd, s.net.fds;
    if fd !in t.tcp || fd in t.listening {
      AnsweredOk(s, p, Value(-EOPNOTSUPP), Failure, ans);
    } else if Known(s.net, fd) {
      var s1 := WithFds(s, t.(listening := t.listening + {fd}));
      ListeningKeeps(s, fd, {p});
      if ans.ret != 0 {
        AnsweredOk(s1, p, Value(ans.ret), Failure, ans);
      } else {
        StartsListening(s1, fd, {p});
        AnsweredOk(SetSock(s1, t.sockets[fd], Listening(s.net.socks[t.sockets[fd]], fd)), p, Value(0), Success, ans);
      }
    }
  }

  lemma StartsListening(s: State, fd: Fd, who: set<Pid>)
    requires Active(s, who) && Known(s.net, fd) && fd in s.net.fds.listening
    requires !s.net.socks[s.net.fds.sockets[fd]].listens && RecvIdle(s.ops, s.net.socks[s.net.fds.sockets[fd]].recv)
    ensures Active(SetSock(s, s.net.fds.sockets[fd], Listening(s.net.socks[s.net.fds.sockets[fd]], fd)), who)
  {
    ListenerIdle(s, fd);
    KnownFd(s, fd);
    SockKeeps(s, s.net.fds.sockets[fd], Listening(s.net.socks[s.net.fds.sockets[fd]], fd), who);
  }

  /** An accept that would wait for a connection. */
  predicate AcceptMustWait(n: Net, fd: Fd) {
    fd in n.fds.listening && Known(n, fd) && fd !in n.fds.fakeAccepted && fd !in n.fds.nonblocking
  }

  /** The descriptor counts as listening, and ns-3 does not listen: what waits for connections there does so in vain. */
  predicate Refused(n: Net, fd: Fd) {
    fd in n.fds.listening && Known(n, fd) && !n.socks[n.fds.sockets[fd]].listens
  }

  /** An accept that blocks finds the slot idle, and connections can come. */
  ghost predicate AcceptFits(s: State, fd: Fd) {
    AcceptMustWait(s.net, fd) ==>
      AcceptIdle(s.tracees, s.ops, s.net.socks[s.net.fds.sockets[fd]].accept) && !Refused(s.net, fd)
  }

  lemma AcceptOk(s: State, p: Pid, c: Call, ans: Answer)
    requires Serving(s, p, c) && c.Accept? && AcceptFits(s, c.fd)
    ensures ResOk(HandleAccept(s, p, c.fd, ans), p)
  {
    var fd, t := c.fd, s.net.fds;
    if fd in t.listening && Known(s.net, fd) {
      if fd in t.fakeAccepted {
        if t.available != {} {
          TakePending(s, p, fd);
          var new_fd := Least(t.available);
          var t' := WithAccepted(t.(fakeAccepted := t.fakeAccepted - {fd}), new_fd, t.fakeAccepted[fd]);
          AnsweredOk(WithFds(s, t'), p, Value(new_fd), Success, ans);
        }
      } else if fd in t.nonblocking {
        AnsweredOk(s, p, Value(-EWOULDBLOCK), Failure, ans);
      } else {
        var k := s.net.socks[t.sockets[fd]].(accept := AcceptWait(p, fd));
        BlockOk(s, p, fd, k, InAccept(fd), ans);
      }
    }
  }

  /** A pending connection gets a descriptor. */
  lemma TakePending(s: State, p: Pid, fd: Fd)
    requires Active(s, {p}) && fd in s.net.fds.fakeAccepted && s.net.fds.available != {}
    ensures var t, new_fd := s.net.fds, Least(s.net.fds.available);
            Active(WithFds(s, WithAccepted(t.(fakeAccepted := t.fakeAccepted - {fd}), new_fd, t.fakeAccepted[fd])), {p})
  {
    var t, new_fd, sid := s.net.fds, Least(s.net.fds.available), s.net.fds.fakeAccepted[fd];
    var s1 := WithFds(s, t.(fakeAccepted := t.fakeAccepted - {fd}));
    TakePendingFdOk(s.net, fd);
    ForgetPending(s, p, fd);
    ClosedUnwaited(s1, new_fd);
    TablesChange(s1, WithAccepted(s1.net.fds, new_fd, sid), new_fd, {p});
  }

  lemma ForgetPending(s: State, p: Pid, fd: Fd)
    requires Active(s, {p}) && fd in s.net.fds.fakeAccepted
    requires FdOk(s.net.(fds := s.net.fds.(fakeAccepted := s.net.fds.fakeAccepted - {fd})))
    ensures Active(WithFds(s, s.net.fds.(fakeAccepted := s.net.fds.fakeAccepted - {fd})), {p})
  {
    var t := WithFds(s, s.net.fds.(fakeAccepted := s.net.fds.fakeAccepted - {fd}));
    forall q | q in t.tracees ensures ContOk(t.events, t.ops, t.net, q, t.tracees[q]) {
      ForgetContOk(s, t.net, fd, q);
    }
    forall i: nat | i < |t.net.socks| ensures SlotsOk(t.tracees, t.ops, t.net.fds, i, t.net.socks[i]) {
      assert SlotsOk(s.tracees, s.ops, s.net.fds, i, s.net.socks[i]);
    }
  }

  /** Nobody waits for a connection that is there. */
  lemma ForgetContOk(s: State, m: Net, fd: Fd, q: Pid)
    requires Core(s) && q in s.tracees && m == s.net.(fds := s.net.fds.(fakeAccepted := s.net.fds.fakeAccepted - {fd}))
    ensures ContOk(s.events, s.ops, m, q, s.tracees[q])
  {
    assert ContOk(s.events, s.ops, s.net, q, s.tracees[q]);
    var c := s.tracees[q].cont;
    if c.InSelect? {
      var o := s.ops[c.op];
      forall f | f in o.watchR ensures WatchesR(m, c.op, f) {
        assert WatchesR(s.net, c.op, f);
      }
      forall f | f in o.watchW ensures WatchesW(m, c.op, f) {
        assert WatchesW(s.net, c.op, f);
      }
    }
  }

  lemma TakePendingFdOk(n: Net, fd: Fd)
    requires FdOk(n) && fd in n.fds.fakeAccepted && n.fds.available != {}
    ensures var t1 := n.fds.(fakeAccepted := n.fds.fakeAccepted - {fd});
            FdOk(n.(fds := t1)) &&
            FdOk(n.(fds := WithAccepted(t1, Least(n.fds.available), n.fds.fakeAccepted[fd])))
  {
  }
}
