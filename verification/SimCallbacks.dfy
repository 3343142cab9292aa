/** The closures that ns-3, netlink sockets and the event queue run, and what they leave behind. */
module SimCallbacks {
  import opened Base
  import opened Sim
  import opened SimInv
  import opened SimHandlers

  // ---- Answering a blocked select ------------------------------------------------------

  /** The state in which select `op` has been flagged and its timeout cancelled, its thread being served. */
  function Flagged(s: State, op: OpId): State
    requires op < |s.ops| && s.ops[op].pid in s.tracees
  {
    var o := s.ops[op];
    s.(ops := s.ops[op := o.(handled := true)], events := Cancel(s.events, o.timeout),
       tracees := s.tracees[o.pid := s.tracees[o.pid].(cont := InFlight)])
  }

  /** An unanswered select: its thread is blocked in it. */
  lemma Unanswered(s: State, op: OpId)
    requires Core(s) && op < |s.ops| && !s.ops[op].handled
    ensures var p := s.ops[op].pid;
            p in s.tracees && s.tracees[p].cont == InSelect(op) && s.tracees[p].stop.AtEntry? &&
            s.tracees[p].stop.call.Select? &&
            ContOk(s.events, s.ops, s.net, p, s.tracees[p])
  {
    assert OpOk(s.tracees, op, s.ops[op]);
  }

  lemma FlaggedTracees(s: State, op: OpId, q: Pid)
    requires Core(s) && op < |s.ops| && !s.ops[op].handled && s.ops[op].pid in s.tracees && q in s.tracees
    ensures var t := Flagged(s, op);
            ContOk(t.events, t.ops, t.net, q, t.tracees[q])
  {
    Unanswered(s, op);
    assert ContOk(s.events, s.ops, s.net, q, s.tracees[q]);
    var o, t := s.ops[op], Flagged(s, op);
    if o.timeout.Some? {
      assert s.events[o.timeout.value].what == SelectTimeout(op);
    }
    if q != o.pid && s.tracees[q].cont.InSelect? {
      assert s.tracees[q].cont.op != op;
    }
  }

  lemma FlaggedSocks(s: State, op: OpId)
    requires Core(s) && op < |s.ops| && !s.ops[op].handled && s.ops[op].pid in s.tracees
    requires s.tracees[s.ops[op].pid].cont == InSelect(op)
    ensures var t := Flagged(s, op);
            SocksOk(t.tracees, t.ops, t.net) && NlsOk(t.ops, t.net)
  {
    var t := Flagged(s, op);
    forall sid: nat | sid < |t.net.socks| ensures SlotsOk(t.tracees, t.ops, t.net.fds, sid, t.net.socks[sid]) {
      assert SlotsOk(s.tracees, s.ops, s.net.fds, sid, s.net.socks[sid]);
    }
    forall i: nat | i < |t.net.nls| ensures NlOk(t.ops, t.net.fds.netlinks, i, t.net.nls[i]) {
      assert NlOk(s.ops, s.net.fds.netlinks, i, s.net.nls[i]);
    }
  }

  lemma FlaggedActive(s: State, op: OpId, who: set<Pid>)
    requires Active(s, who) && op < |s.ops| && !s.ops[op].handled && s.ops[op].pid in s.tracees
    ensures Active(Flagged(s, op), who + {s.ops[op].pid})
  {
    Unanswered(s, op);
    var o, t := s.ops[op], Flagged(s, op);
    forall q | q in t.tracees
      ensures ContOk(t.events, t.ops, t.net, q, t.tracees[q])
    {
      FlaggedTracees(s, op, q);
    }
    FlaggedSocks(s, op);
    forall e | e in t.events ensures EventOk(t.tracees, t.ops, e, t.events[e].what) {
      assert EventOk(s.tracees, s.ops, e, s.events[e].what);
    }
    forall i: nat | i < |t.ops| ensures OpOk(t.tracees, i, t.ops[i]) {
      assert OpOk(s.tracees, i, s.ops[i]);
    }
  }

  /** The thread of a finished select, as its closure leaves it. */
  lemma FinishForm(s: State, op: OpId, result: Result, stray: Call)
    requires op < |s.ops| && s.ops[op].pid in s.tracees && s.tracees[s.ops[op].pid].stop.AtEntry?
    ensures var p := s.ops[op].pid;
            FinishSelect(s, op, p, result, stray) == Resume(Fake(Flagged(s, op), p, result, stray), p)
  {
    var p, o := s.ops[op].pid, s.ops[op];
    var f, g := FinishSelect(s, op, p, result, stray), Resume(Fake(Flagged(s, op), p, result, stray), p);
    assert f.tracees == s.tracees[p := Tracee(AtExit(result), Resumes(s.nextEvent))];
    assert g.tracees == s.tracees[p := Tracee(AtExit(result), Resumes(s.nextEvent))];
  }

  /** One closure answers the select; its thread is scheduled and the invariant holds again. */
  lemma FinishKeeps(s: State, op: OpId, result: Result, stray: Call, who: set<Pid>)
    requires Active(s, who) && op < |s.ops| && !s.ops[op].handled
    ensures Active(FinishSelect(s, op, s.ops[op].pid, result, stray), who)
  {
    Unanswered(s, op);
    var p := s.ops[op].pid;
    var f, both := Flagged(s, op), who + {p};
    FlaggedActive(s, op, who);
    FakeKeeps(f, p, result, stray, both);
    ResumeKeeps(Fake(f, p, result, stray), p, both);
    FinishForm(s, op, result, stray);
    assert both - {p} == who;
  }

  lemma FakeNet(s: State, m: Net, p: Pid, result: Result, stray: Call)
    ensures Fake(s.(net := m), p, result, stray) == Fake(s, p, result, stray).(net := m)
    ensures Fake(s, p, result, stray).net == s.net && Fake(s, p, result, stray).ops == s.ops
  {
  }

  lemma ResumeNet(s: State, m: Net, p: Pid)
    ensures Resume(s.(net := m), p) == Resume(s, p).(net := m)
    ensures Resume(s, p).net == s.net && Resume(s, p).ops == s.ops
  {
  }

  /** Finishing a select reads and writes nothing of the network. */
  lemma FinishNet(s: State, m: Net, op: OpId, faked: Pid, result: Result, stray: Call)
    requires op < |s.ops|
    ensures FinishSelect(s.(net := m), op, faked, result, stray) == FinishSelect(s, op, faked, result, stray).(net := m)
    ensures FinishSelect(s, op, faked, result, stray).net == s.net
    ensures FinishSelect(s, op, faked, result, stray).ops == s.ops[op := s.ops[op].(handled := true)]
  {
    var o := s.ops[op];
    var f := s.(ops := s.ops[op := o.(handled := true)], events := Cancel(s.events, o.timeout));
    FakeNet(f, m, faked, result, stray);
    ResumeNet(Fake(f, faked, result, stray), m, o.pid);
  }

  // ---- Waking a thread that waits on a socket --------------------------------------------

  function Released(s: State, p: Pid, m: Net): State
    requires p in s.tracees
  {
    s.(net := m, tracees := s.tracees[p := s.tracees[p].(cont := InFlight)])
  }

  /** The thread leaves its socket; for everybody else the new network must be as good as the old one. */
  lemma ReleaseKeeps(s: State, p: Pid, m: Net)
    requires Inv(s) && p in s.tracees
    requires s.tracees[p].cont.InRecv? || s.tracees[p].cont.InAccept? || s.tracees[p].cont.InConnect?
    requires FdOk(m)
    requires forall q :: q in s.tracees && q != p ==> ContOk(s.events, s.ops, m, q, s.tracees[q])
    requires SocksOk(Released(s, p, m).tracees, s.ops, m) && NlsOk(s.ops, m)
    ensures Active(Released(s, p, m), {p})
  {
    var t := Released(s, p, m);
    assert forall q, c :: q != p ==> (HasCont(t.tracees, q, c) <==> HasCont(s.tracees, q, c));
    forall e | e in t.events ensures EventOk(t.tracees, t.ops, e, t.events[e].what) {
      assert EventOk(s.tracees, s.ops, e, s.events[e].what);
    }
    forall i: nat | i < |t.ops| ensures OpOk(t.tracees, i, t.ops[i]) {
      assert OpOk(s.tracees, i, s.ops[i]);
    }
  }

  /** Answering a released thread and scheduling it. */
  lemma WakeKeeps(s: State, p: Pid, m: Net, result: Result, stray: Call)
    requires p in s.tracees && s.tracees[p].stop.AtEntry? && Active(Released(s, p, m), {p})
    ensures Inv(Resume(Fake(s.(net := m), p, result, stray), p))
    ensures Resume(Fake(s.(net := m), p, result, stray), p).tracees ==
            s.tracees[p := Tracee(AtExit(result), Resumes(s.nextEvent))]
  {
    var r := Released(s, p, m);
    FakeKeeps(r, p, result, stray, {p});
    ResumeKeeps(Fake(r, p, result, stray), p, {p});
    WakeForm(s, p, m, result, stray);
    assert {p} - {p} == {};
  }

  lemma WakeForm(s: State, p: Pid, m: Net, result: Result, stray: Call)
    requires p in s.tracees && s.tracees[p].stop.AtEntry?
    ensures Resume(Fake(s.(net := m), p, result, stray), p) == Resume(Fake(Released(s, p, m), p, result, stray), p)
    ensures Resume(Fake(s.(net := m), p, result, stray), p).tracees ==
            s.tracees[p := Tracee(AtExit(result), Resumes(s.nextEvent))]
    ensures Resume(Fake(s, p, result, stray), p).(net := m) == Resume(Fake(s.(net := m), p, result, stray), p)
  {
  }

  // ---- Data ------------------------------------------------------------------------------

  /** ns-3 delivers data to sockets it does not listen on, */
  predicate TakesData(n: Net, sid: SockId) {
    sid < |n.socks| && !n.socks[sid].listens
  }

  /** and connections to those it listens on. */
  ghost predicate TakesConnections(n: Net, sid: SockId) {
    sid < |n.socks| && n.socks[sid].listens && exists f :: IsFdOf(n.fds.sockets, f, sid)
  }

  /** New data behind a callback that resumes nobody concerns nobody. */
  lemma RxContOk(s: State, sid: SockId, rx: nat, r: RecvCb, q: Pid)
    requires Core(s) && TakesData(s.net, sid) && q in s.tracees
    requires s.tracees[q].cont.InRecv? ==> !(IsFdOf(s.net.fds.sockets, s.tracees[q].cont.fd, sid))
    requires RecvIdle(s.ops, s.net.socks[sid].recv) || s.net.socks[sid].recv.ReadWait?
    ensures ContOk(s.events, s.ops, SetSock(s, sid, s.net.socks[sid].(rx := rx, recv := r)).net, q, s.tracees[q])
  {
    assert ContOk(s.events, s.ops, s.net, q, s.tracees[q]);
    var c, m := s.tracees[q].cont, SetSock(s, sid, s.net.socks[sid].(rx := rx, recv := r)).net;
    if c.InSelect? {
      var o := s.ops[c.op];
      forall f | f in o.watchR ensures WatchesR(m, c.op, f) {
        assert WatchesR(s.net, c.op, f);
      }
      forall f | f in o.watchW ensures WatchesW(m, c.op, f) {
        assert WatchesW(s.net, c.op, f);
      }
    }
  }

  lemma RxKeeps(s: State, sid: SockId, rx: nat, r: RecvCb)
    requires Inv(s) && TakesData(s.net, sid) && RecvIdle(s.ops, s.net.socks[sid].recv)
    requires r == s.net.socks[sid].recv || r == NoRecv
    ensures Inv(SetSock(s, sid, s.net.socks[sid].(rx := rx, recv := r)))
  {
    assert SlotsOk(s.tracees, s.ops, s.net.fds, sid, s.net.socks[sid]);
    SockKeeps(s, sid, s.net.socks[sid].(rx := rx, recv := r), {});
  }

  /** A blocked read or recvfrom gets its data. */
  lemma ReadWakes(s: State, sid: SockId, rx: nat, ans: Answer)
    requires Inv(s) && TakesData(s.net, sid) && s.net.socks[sid].recv.ReadWait?
    ensures var p := s.net.socks[sid].recv.pid;
            Inv(OnData(s, sid, rx, ans)) && p in s.tracees && s.tracees[p].cont == InRecv(s.net.socks[sid].recv.fd) &&
            OnData(s, sid, rx, ans).tracees == s.tracees[p := Tracee(AtExit(Value(ans.ret)), Resumes(s.nextEvent))]
  {
    var k := s.net.socks[sid];
    var p := k.recv.pid;
    assert SlotsOk(s.tracees, s.ops, s.net.fds, sid, k);
    assert ContOk(s.events, s.ops, s.net, p, s.tracees[p]);
    var m := SetSock(s, sid, k.(rx := ans.rxAfter, recv := NoRecv)).net;
    ReadReleases(s, sid, ans.rxAfter, m);
    WakeKeeps(s, p, m, Value(ans.ret), ans.stray);
    ReadForm(s, sid, rx, m, ans);
  }

  lemma ReadForm(s: State, sid: SockId, rx: nat, m: Net, ans: Answer)
    requires sid < |s.net.socks| && s.net.socks[sid].recv.ReadWait?
    requires m == SetSock(s, sid, s.net.socks[sid].(rx := ans.rxAfter, recv := NoRecv)).net
    ensures OnData(s, sid, rx, ans) ==
            Resume(Fake(s.(net := m), s.net.socks[sid].recv.pid, Value(ans.ret), ans.stray), s.net.socks[sid].recv.pid)
  {
    var k, p := s.net.socks[sid], s.net.socks[sid].recv.pid;
    var s1 := SetSock(s, sid, k.(rx := rx));
    FakeNet(s, s1.net, p, Value(ans.ret), ans.stray);
    ResumeNet(Fake(s, p, Value(ans.ret), ans.stray), s1.net, p);
    FakeNet(s, m, p, Value(ans.ret), ans.stray);
    ResumeNet(Fake(s, p, Value(ans.ret), ans.stray), m, p);
  }

  lemma ReadReleases(s: State, sid: SockId, rx: nat, m: Net)
    requires Inv(s) && TakesData(s.net, sid) && s.net.socks[sid].recv.ReadWait?
    requires s.net.socks[sid].recv.pid in s.tracees
    requires s.tracees[s.net.socks[sid].recv.pid].cont == InRecv(s.net.socks[sid].recv.fd)
    requires IsFdOf(s.net.fds.sockets, s.net.socks[sid].recv.fd, sid)
    requires m == SetSock(s, sid, s.net.socks[sid].(rx := rx, recv := NoRecv)).net
    ensures Active(Released(s, s.net.socks[sid].recv.pid, m), {s.net.socks[sid].recv.pid})
  {
    var p := s.net.socks[sid].recv.pid;
    forall q | q in s.tracees && q != p ensures ContOk(s.events, s.ops, m, q, s.tracees[q]) {
      assert ContOk(s.events, s.ops, s.net, q, s.tracees[q]);
      RxContOk(s, sid, rx, NoRecv, q);
    }
    ReadWakesSocks(s, sid, m);
    ReleaseKeeps(s, p, m);
  }

  lemma ReadWakesSocks(s: State, sid: SockId, m: Net)
    requires Inv(s) && sid < |s.net.socks| && s.net.socks[sid].recv.ReadWait? && s.net.socks[sid].recv.pid in s.tracees
    requires exists rx: nat :: m == SetSock(s, sid, s.net.socks[sid].(rx := rx, recv := NoRecv)).net
    ensures SocksOk(Released(s, s.net.socks[sid].recv.pid, m).tracees, s.ops, m) && FdOk(m) && NlsOk(s.ops, m)
  {
    var p := s.net.socks[sid].recv.pid;
    var ts := Released(s, p, m).tracees;
    assert SlotsOk(s.tracees, s.ops, s.net.fds, sid, s.net.socks[sid]);
    forall i: nat | i < |m.socks| ensures SlotsOk(ts, s.ops, m.fds, i, m.socks[i]) {
      assert SlotsOk(s.tracees, s.ops, s.net.fds, i, s.net.socks[i]);
    }
  }

  /** What data may arrive where: the answer of a select goes to the member pid, which must be its thread's. */
  ghost predicate DataAllowed(s: State, sid: SockId) {
    TakesData(s.net, sid) &&
    var r := s.net.socks[sid].recv;
    r.SelectRecv? && r.op < |s.ops| && !s.ops[r.op].handled ==> s.pid == s.ops[r.op].pid
  }

  /** Data on a watched descriptor answers the select that watches it. */
  lemma SelectDataWakes(s: State, sid: SockId, rx: nat, ans: Answer)
    requires Inv(s) && DataAllowed(s, sid)
    requires s.net.socks[sid].recv.SelectRecv? && !RecvIdle(s.ops, s.net.socks[sid].recv)
    ensures Inv(OnData(s, sid, rx, ans))
  {
    var k := s.net.socks[sid];
    assert SlotsOk(s.tracees, s.ops, s.net.fds, sid, k);
    var op, result := k.recv.op, OneRead(s.ops[k.recv.op], k.recv.fd);
    FinishKeeps(s, op, result, ans.stray, {});
    SelectDataForm(s, sid, rx, ans);
    FinishNet(s, s.net, op, s.pid, result, ans.stray);
    RxKeeps(FinishSelect(s, op, s.pid, result, ans.stray), sid, rx, NoRecv);
  }

  lemma SelectDataForm(s: State, sid: SockId, rx: nat, ans: Answer)
    requires sid < |s.net.socks| && s.net.socks[sid].recv.SelectRecv?
    requires s.net.socks[sid].recv.op < |s.ops| && !s.ops[s.net.socks[sid].recv.op].handled
    ensures var k := s.net.socks[sid];
            var t := FinishSelect(s, k.recv.op, s.pid, OneRead(s.ops[k.recv.op], k.recv.fd), ans.stray);
            t.net == s.net && OnData(s, sid, rx, ans) == SetSock(t, sid, k.(rx := rx, recv := NoRecv))
  {
    var k := s.net.socks[sid];
    var s1 := SetSock(s, sid, k.(rx := rx));
    FinishNet(s, s1.net, k.recv.op, s.pid, OneRead(s.ops[k.recv.op], k.recv.fd), ans.stray);
  }

  lemma DataKeeps(s: State, sid: SockId, rx: nat, ans: Answer)
    requires Inv(s) && DataAllowed(s, sid)
    ensures Inv(OnData(s, sid, rx, ans))
  {
    var k := s.net.socks[sid];
    if k.recv.ReadWait? {
      ReadWakes(s, sid, rx, ans);
    } else if RecvIdle(s.ops, k.recv) {
      RxKeeps(s, sid, rx, k.recv);
    } else {
      SelectDataWakes(s, sid, rx, ans);
    }
  }

  // ---- Send space ------------------------------------------------------------------------

  lemma TxKeeps(s: State, sid: SockId, tx: nat, c: SendCb)
    requires Inv(s) && sid < |s.net.socks| && SendIdle(s.ops, s.net.socks[sid].send)
    requires c == s.net.socks[sid].send || c == NoSend
    ensures Inv(SetSock(s, sid, s.net.socks[sid].(tx := tx, send := c)))
  {
    assert SlotsOk(s.tracees, s.ops, s.net.fds, sid, s.net.socks[sid]);
    SockKeeps(s, sid, s.net.socks[sid].(tx := tx, send := c), {});
  }

  lemma SelectSpaceForm(s: State, sid: SockId, tx: nat, ans: Answer)
    requires sid < |s.net.socks| && s.net.socks[sid].send.SelectSend?
    requires s.net.socks[sid].send.op < |s.ops| && !s.ops[s.net.socks[sid].send.op].handled
    ensures var k := s.net.socks[sid];
            var o := s.ops[k.send.op];
            var t := FinishSelect(s, k.send.op, o.pid, OneWrite(o, k.send.fd), ans.stray);
            t.net == s.net && OnSpace(s, sid, tx, ans) == SetSock(t, sid, k.(tx := tx, send := NoSend))
  {
    var k := s.net.socks[sid];
    var o := s.ops[k.send.op];
    FinishNet(s, SetSock(s, sid, k.(tx := tx)).net, k.send.op, o.pid, OneWrite(o, k.send.fd), ans.stray);
  }

  /** Space on a watched descriptor answers the select that watches it. */
  lemma SelectSpaceWakes(s: State, sid: SockId, tx: nat, ans: Answer)
    requires Inv(s) && sid < |s.net.socks| && !SendIdle(s.ops, s.net.socks[sid].send)
    ensures Inv(OnSpace(s, sid, tx, ans))
  {
    var k := s.net.socks[sid];
    assert SlotsOk(s.tracees, s.ops, s.net.fds, sid, k);
    var op, result := k.send.op, OneWrite(s.ops[k.send.op], k.send.fd);
    FinishKeeps(s, op, result, ans.stray, {});
    SelectSpaceForm(s, sid, tx, ans);
    FinishNet(s, s.net, op, s.ops[op].pid, result, ans.stray);
    TxKeeps(FinishSelect(s, op, s.ops[op].pid, result, ans.stray), sid, tx, NoSend);
  }

  lemma SpaceKeeps(s: State, sid: SockId, tx: nat, ans: Answer)
    requires Inv(s) && sid < |s.net.socks|
    ensures Inv(OnSpace(s, sid, tx, ans))
  {
    var k := s.net.socks[sid];
    assert SlotsOk(s.tracees, s.ops, s.net.fds, sid, k);
    if SendIdle(s.ops, k.send) {
      TxKeeps(s, sid, tx, k.send);
    } else {
      SelectSpaceWakes(s, sid, tx, ans);
    }
  }

  // ---- Connections -------------------------------------------------------------------------

  /** Whether ns-3 can complete a connection here; a blocking accept serves one and only one, and its own thread. */
  ghost predicate ConnectionAllowed(s: State, sid: SockId) {
    TakesConnections(s.net, sid) &&
    var a := s.net.socks[sid].accept;
    a.AcceptWait? ==> AcceptServes(s, a.pid)
  }

  /** The thread behind a blocking accept's closure is waiting in accept, and was the last one dispatched. */
  ghost predicate AcceptServes(s: State, p: Pid) {
    s.pid == p && p in s.tracees && s.tracees[p].cont.InAccept?
  }

  predicate AcceptDead(ops: seq<SelectOp>, a: AcceptCb) {
    !a.SelectAccept? || (a.op < |ops| && ops[a.op].handled)
  }

  /** A connection becomes pending on `fd` while no live closure watches the listener. */
  lemma PendKeeps(s: State, fd: Fd, a: AcceptCb)
    requires Inv(s) && Known(s.net, fd) && s.net.socks[s.net.fds.sockets[fd]].listens
    requires var b := s.net.socks[s.net.fds.sockets[fd]].accept;
             !b.AcceptWait? && AcceptDead(s.ops, b) && (a == b || a == NoAccept)
    ensures Inv(Pend(s, fd, a))
  {
    var t := Pend(s, fd, a);
    var sid := s.net.fds.sockets[fd];
    PendFdOk(s.net, fd, a);
    forall q | q in t.tracees ensures ContOk(t.events, t.ops, t.net, q, t.tracees[q]) {
      PendContOk(s, fd, a, q);
    }
    forall i: nat | i < |t.net.socks| ensures SlotsOk(t.tracees, t.ops, t.net.fds, i, t.net.socks[i]) {
      if i < |s.net.socks| {
        assert SlotsOk(s.tracees, s.ops, s.net.fds, i, s.net.socks[i]);
      }
    }
  }

  function PendNet(n: Net, fd: Fd, a: AcceptCb): Net
    requires Known(n, fd)
  {
    var sid := n.fds.sockets[fd];
    n.(fds := n.fds.(fakeAccepted := n.fds.fakeAccepted[fd := |n.socks|]),
       socks := (n.socks + [FRESH_SOCK])[sid := n.socks[sid].(accept := a)])
  }

  function Pend(s: State, fd: Fd, a: AcceptCb): State
    requires Known(s.net, fd)
  {
    s.(net := PendNet(s.net, fd, a))
  }

  lemma PendFdOk(n: Net, fd: Fd, a: AcceptCb)
    requires FdOk(n) && Known(n, fd)
    ensures FdOk(PendNet(n, fd, a))
  {
  }

  lemma PendContOk(s: State, fd: Fd, a: AcceptCb, q: Pid)
    requires Inv(s) && Known(s.net, fd) && s.net.socks[s.net.fds.sockets[fd]].listens && q in s.tracees
    requires var b := s.net.socks[s.net.fds.sockets[fd]].accept;
             !b.AcceptWait? && AcceptDead(s.ops, b)
    ensures ContOk(s.events, s.ops, PendNet(s.net, fd, a), q, s.tracees[q])
  {
    assert ContOk(s.events, s.ops, s.net, q, s.tracees[q]);
    var c, m := s.tracees[q].cont, PendNet(s.net, fd, a);
    if c.InSelect? {
      var o := s.ops[c.op];
      forall f | f in o.watchR ensures WatchesR(m, c.op, f) {
        PendWatchesR(s, fd, a, c.op, f);
      }
      forall f | f in o.watchW ensures WatchesW(m, c.op, f) {
        assert WatchesW(s.net, c.op, f);
      }
    }
  }

  lemma PendWatchesR(s: State, fd: Fd, a: AcceptCb, op: OpId, f: Fd)
    requires FdOk(s.net) && Known(s.net, fd) && s.net.socks[s.net.fds.sockets[fd]].listens
    requires AcceptDead(s.ops, s.net.socks[s.net.fds.sockets[fd]].accept) && op < |s.ops| && !s.ops[op].handled
    requires WatchesR(s.net, op, f)
    ensures WatchesR(PendNet(s.net, fd, a), op, f)
  {
    assert f != fd;
  }

  lemma ConnectionKeeps(s: State, sid: SockId, ans: Answer)
    requires Inv(s) && ConnectionAllowed(s, sid)
    requires s.net.socks[sid].accept.AcceptWait? ==> s.net.fds.available != {}
    ensures Inv(OnConnection(s, sid, ans))
  {
    var k := s.net.socks[sid];
    var fd :| IsFdOf(s.net.fds.sockets, fd, sid);
    assert SlotsOk(s.tracees, s.ops, s.net.fds, sid, k);
    if k.accept.NoAccept? {
      SpareSocket(s, FRESH_SOCK, {});
    } else {
      assert k.accept.fd == fd;
      match k.accept
      case DefaultAccept(_) =>
        assert (s.net.socks + [FRESH_SOCK])[sid := k] == s.net.socks + [FRESH_SOCK];
        PendKeeps(s, fd, k.accept);
      case SelectAccept(op, _) =>
        if s.ops[op].handled {
          SpareSocket(s, FRESH_SOCK, {});
        } else {
          SelectAcceptWakes(s, sid, fd, ans);
        }
      case AcceptWait(p, _) => AcceptWakes(s, sid, fd, ans);
    }
  }

  /** A connection on a watched listener answers the select that watches it and stays pending. */
  lemma SelectAcceptWakes(s: State, sid: SockId, fd: Fd, ans: Answer)
    requires Inv(s) && sid < |s.net.socks| && IsFdOf(s.net.fds.sockets, fd, sid) && s.net.socks[sid].listens
    requires s.net.socks[sid].accept.SelectAccept? && s.net.socks[sid].accept.fd == fd
    requires !AcceptDead(s.ops, s.net.socks[sid].accept)
    ensures Inv(OnConnection(s, sid, ans))
  {
    var k := s.net.socks[sid];
    assert SlotsOk(s.tracees, s.ops, s.net.fds, sid, k);
    var op, result := k.accept.op, OneRead(s.ops[k.accept.op], fd);
    FinishKeeps(s, op, result, ans.stray, {});
    SelectAcceptForm(s, sid, fd, ans);
    FinishNet(s, s.net, op, s.ops[op].pid, result, ans.stray);
    PendKeeps(FinishSelect(s, op, s.ops[op].pid, result, ans.stray), fd, NoAccept);
  }

  lemma SelectAcceptForm(s: State, sid: SockId, fd: Fd, ans: Answer)
    requires sid < |s.net.socks| && IsFdOf(s.net.fds.sockets, fd, sid)
    requires s.net.socks[sid].accept.SelectAccept? && s.net.socks[sid].accept.fd == fd
    requires s.net.socks[sid].accept.op < |s.ops| && !s.ops[s.net.socks[sid].accept.op].handled
    ensures var op := s.net.socks[sid].accept.op;
            var t := FinishSelect(s, op, s.ops[op].pid, OneRead(s.ops[op], fd), ans.stray);
            t.net == s.net && OnConnection(s, sid, ans) == Pend(t, fd, NoAccept)
  {
    var op := s.net.socks[sid].accept.op;
    FinishNet(s, PendNet(s.net, fd, NoAccept), op, s.ops[op].pid, OneRead(s.ops[op], fd), ans.stray);
  }

  /** A blocking accept gets its connection. */
  lemma AcceptWakes(s: State, sid: SockId, fd: Fd, ans: Answer)
    requires Inv(s) && ConnectionAllowed(s, sid) && s.net.fds.available != {}
    requires IsFdOf(s.net.fds.sockets, fd, sid)
    requires s.net.socks[sid].accept.AcceptWait? && s.net.socks[sid].accept.fd == fd
    ensures Inv(OnConnection(s, sid, ans))
  {
    var p, new_fd := s.net.socks[sid].accept.pid, Least(s.net.fds.available);
    var m := AcceptedNet(s.net, new_fd);
    assert ContOk(s.events, s.ops, s.net, p, s.tracees[p]);
    AcceptReleases(s, p, new_fd);
    WakeKeeps(s, p, m, Value(new_fd), ans.stray);
  }

  function AcceptedNet(n: Net, new_fd: Fd): Net {
    n.(fds := WithAccepted(n.fds, new_fd, |n.socks|), socks := n.socks + [FRESH_SOCK])
  }

  lemma AcceptedFdOk(n: Net, new_fd: Fd)
    requires FdOk(n) && new_fd in n.fds.available
    ensures FdOk(AcceptedNet(n, new_fd))
  {
  }

  lemma AcceptReleases(s: State, p: Pid, new_fd: Fd)
    requires Inv(s) && p in s.tracees && s.tracees[p].cont.InAccept? && new_fd in s.net.fds.available
    ensures Active(Released(s, p, AcceptedNet(s.net, new_fd)), {p})
  {
    var m := AcceptedNet(s.net, new_fd);
    AcceptedFdOk(s.net, new_fd);
    forall q | q in s.tracees && q != p ensures ContOk(s.events, s.ops, m, q, s.tracees[q]) {
      forall f | f in WaitFds(s.ops, s.tracees[q].cont) ensures SameFor(s.net, m, f) {
        WaitedIsOpen(s, q, f);
        assert f != new_fd;
      }
      SameForKeepsContOk(s, m, q);
    }
    AcceptedSocks(s, p, new_fd);
    ReleaseKeeps(s, p, m);
  }

  lemma AcceptedSocks(s: State, p: Pid, new_fd: Fd)
    requires Inv(s) && p in s.tracees && s.tracees[p].cont.InAccept? && new_fd in s.net.fds.available
    ensures var m := AcceptedNet(s.net, new_fd);
            SocksOk(Released(s, p, m).tracees, s.ops, m) && NlsOk(s.ops, m)
  {
    var m := AcceptedNet(s.net, new_fd);
    var ts := Released(s, p, m).tracees;
    assert forall f, x :: f != new_fd ==> (IsFdOf(m.fds.sockets, f, x) <==> IsFdOf(s.net.fds.sockets, f, x));
    forall i: nat | i < |m.socks| ensures SlotsOk(ts, s.ops, m.fds, i, m.socks[i]) {
      if i < |s.net.socks| {
        assert SlotsOk(s.tracees, s.ops, s.net.fds, i, s.net.socks[i]);
      }
    }
  }

  // ---- Connection attempts -------------------------------------------------------------------

  function ConnectNet(n: Net, sid: SockId, ok: bool, fd: Fd): Net
    requires sid < |n.socks|
  {
    n.(fds := if ok then n.fds.(connected := n.fds.connected + {fd}) else n.fds,
       socks := n.socks[sid := n.socks[sid].(connecting := false)])
  }

  /** The end of a connection attempt resumes the thread that made it. */
  lemma ConnectEndKeeps(s: State, sid: SockId, ok: bool, ans: Answer)
    requires Inv(s) && sid < |s.net.socks| && s.net.socks[sid].connecting
    ensures Inv(OnConnect(s, sid, ok, ans))
  {
    var k := s.net.socks[sid];
    assert SlotsOk(s.tracees, s.ops, s.net.fds, sid, k);
    var p, fd := k.connect.pid, k.connect.fd;
    var m := ConnectNet(s.net, sid, ok, fd);
    assert ContOk(s.events, s.ops, s.net, p, s.tracees[p]);
    ConnectReleases(s, sid, ok);
    WakeKeeps(s, p, m, Value(if ok then 0 else -1), ans.stray);
    assert OnConnect(s, sid, ok, ans) == Resume(Fake(s.(net := m), p, Value(if ok then 0 else -1), ans.stray), p);
  }

  lemma ConnectReleases(s: State, sid: SockId, ok: bool)
    requires Inv(s) && sid < |s.net.socks| && s.net.socks[sid].connecting && s.net.socks[sid].connect.ConnectWait?
    requires HasCont(s.tracees, s.net.socks[sid].connect.pid, InConnect(s.net.socks[sid].connect.fd))
    requires IsFdOf(s.net.fds.sockets, s.net.socks[sid].connect.fd, sid)
    ensures var c := s.net.socks[sid].connect;
            Active(Released(s, c.pid, ConnectNet(s.net, sid, ok, c.fd)), {c.pid})
  {
    var p, fd := s.net.socks[sid].connect.pid, s.net.socks[sid].connect.fd;
    var m := ConnectNet(s.net, sid, ok, fd);
    forall q | q in s.tracees && q != p ensures ContOk(s.events, s.ops, m, q, s.tracees[q]) {
      ConnectedContOk(s, sid, ok, q);
    }
    ConnectSocks(s, sid, ok);
    ReleaseKeeps(s, p, m);
  }

  /** The end of an attempt matters to the thread that made it only. */
  lemma ConnectedContOk(s: State, sid: SockId, ok: bool, q: Pid)
    requires Inv(s) && sid < |s.net.socks| && s.net.socks[sid].connect.ConnectWait?
    requires q in s.tracees && q != s.net.socks[sid].connect.pid
    ensures ContOk(s.events, s.ops, ConnectNet(s.net, sid, ok, s.net.socks[sid].connect.fd), q, s.tracees[q])
  {
    assert ContOk(s.events, s.ops, s.net, q, s.tracees[q]);
    var c, m := s.tracees[q].cont, ConnectNet(s.net, sid, ok, s.net.socks[sid].connect.fd);
    if c.InSelect? {
      ConnectedWatches(s.net, sid, ok, s.net.socks[sid].connect.fd, c.op, s.ops[c.op]);
    }
  }

  lemma ConnectedWatches(n: Net, sid: SockId, ok: bool, fd: Fd, op: OpId, o: SelectOp)
    requires sid < |n.socks| && WatchedBy(n, op, o)
    ensures WatchedBy(ConnectNet(n, sid, ok, fd), op, o)
  {
    var m := ConnectNet(n, sid, ok, fd);
    forall f | f in o.watchR ensures WatchesR(m, op, f) {
      assert WatchesR(n, op, f);
    }
    forall f | f in o.watchW ensures WatchesW(m, op, f) {
      assert WatchesW(n, op, f);
    }
  }

  lemma ConnectSocks(s: State, sid: SockId, ok: bool)
    requires Inv(s) && sid < |s.net.socks| && s.net.socks[sid].connecting && s.net.socks[sid].connect.ConnectWait?
    requires HasCont(s.tracees, s.net.socks[sid].connect.pid, InConnect(s.net.socks[sid].connect.fd))
    requires IsFdOf(s.net.fds.sockets, s.net.socks[sid].connect.fd, sid)
    ensures var c := s.net.socks[sid].connect;
            var m := ConnectNet(s.net, sid, ok, c.fd);
            FdOk(m) && SocksOk(Released(s, c.pid, m).tracees, s.ops, m) && NlsOk(s.ops, m)
  {
    var p, fd := s.net.socks[sid].connect.pid, s.net.socks[sid].connect.fd;
    var m := ConnectNet(s.net, sid, ok, fd);
    var ts := Released(s, p, m).tracees;
    ConnectNetFdOk(s.net, sid, ok, fd);
    forall i: nat | i < |m.socks| ensures SlotsOk(ts, s.ops, m.fds, i, m.socks[i]) {
      ConnectSlots(s, sid, ok, i);
    }
  }

  lemma ConnectSlots(s: State, sid: SockId, ok: bool, i: SockId)
    requires SocksOk(s.tracees, s.ops, s.net) && FdOk(s.net) && sid < |s.net.socks| && i < |s.net.socks|
    requires s.net.socks[sid].connecting && s.net.socks[sid].connect.ConnectWait?
    requires HasCont(s.tracees, s.net.socks[sid].connect.pid, InConnect(s.net.socks[sid].connect.fd))
    requires IsFdOf(s.net.fds.sockets, s.net.socks[sid].connect.fd, sid)
    ensures var c := s.net.socks[sid].connect;
            var m := ConnectNet(s.net, sid, ok, c.fd);
            SlotsOk(Released(s, c.pid, m).tracees, s.ops, m.fds, i, m.socks[i])
  {
    assert SlotsOk(s.tracees, s.ops, s.net.fds, i, s.net.socks[i]);
  }

  lemma ConnectNetFdOk(n: Net, sid: SockId, ok: bool, fd: Fd)
    requires FdOk(n) && IsFdOf(n.fds.sockets, fd, sid)
    ensures FdOk(ConnectNet(n, sid, ok, fd))
  {
  }
}
