/**
 * What the engine relies on is not only sufficient. Whatever the call and whatever the step, if the condition on it
 * fails, a thread comes to harm: nothing is left to resume it, it goes on unanswered, it is resumed twice, or it waits
 * in a select that does not hear of what it waits for.
 */
module Exactness {
  import opened NetlinkWire
  import opened Sim
  import opened SimInv
  import opened SimHandlers
  import opened SimCallbacks
  import opened SimServing
  import opened SimSelect
  import opened SimRun
  import opened SimFrame
  import opened Resumption
  import opened Readiness
  import NL = Netlink

  // ---- Losing a closure -------------------------------------------------------------------

  /** Other threads, and the selects made before, are as they were. */
  ghost predicate Around(s: State, t: State, p: Pid) {
    s.ops <= t.ops && OthersKept(s.tracees, t.tracees, {p})
  }

  /** An event that was there, or one for thread `p`, a new select or a closed socket. */
  predicate EventFor(s: State, e: EvId, event: Event, p: Pid) {
    (e in s.events && event == s.events[e]) || event.what == Before(p) || event.what.SocketCleanup? ||
    (event.what.SelectTimeout? && event.what.op >= |s.ops|)
  }

  /** A socket's closures are as they were, or made by thread `p`. */
  predicate ClosuresFor(k: Sock, l: Sock, p: Pid) {
    (l.recv.ReadWait? ==> l.recv == k.recv || l.recv.pid == p) &&
    (l.accept.AcceptWait? ==> l.accept == k.accept || l.accept.pid == p) &&
    (l.connecting && l.connect.ConnectWait? ==> (k.connecting && l.connect == k.connect) || l.connect.pid == p)
  }

  /** Whatever is new is made by thread `p` and for it; sockets may have been closed but not opened. */
  ghost predicate Mild(s: State, t: State, p: Pid) {
    Around(s, t, p) && MildQueue(s, t, p) && MildNet(s.net, t.net, p)
  }

  ghost predicate MildQueue(s: State, t: State, p: Pid) {
    (forall e :: e in t.events ==> EventFor(s, e, t.events[e], p)) &&
    (forall op: nat :: |s.ops| <= op < |t.ops| ==> t.ops[op].pid == p)
  }

  ghost predicate MildNet(n: Net, m: Net, p: Pid) {
    |m.socks| == |n.socks| && (forall i: nat :: i < |n.socks| ==> ClosuresFor(n.socks[i], m.socks[i], p)) &&
    (forall f, i :: IsFdOf(m.fds.sockets, f, i) ==> IsFdOf(n.fds.sockets, f, i))
  }

  /** A thread that waits on a socket gets no other source than its own from what another thread does. */
  lemma NoOtherSource(s: State, t: State, p: Pid, q: Pid)
    requires Active(s, {p}) && Mild(s, t, p) && q in s.tracees && q != p && !s.tracees[q].cont.InSelect?
    ensures forall src :: Real(t, src, q) ==> src == SourceOf(s.net, s.tracees[q].cont)
  {
    NotSelecting(s, q);
    forall src | Real(t, src, q) ensures src == SourceOf(s.net, s.tracees[q].cont) {
      if src.ByEvent? {
        assert EventOk(s.tracees, s.ops, src.e, s.events[src.e].what);
      } else if !src.BySelect? {
        NoOtherSocket(s, t, p, q, src);
      }
    }
  }

  lemma NotSelecting(s: State, q: Pid)
    requires OpsOk(s) && q in s.tracees && !s.tracees[q].cont.InSelect?
    ensures forall op: nat :: op < |s.ops| && s.ops[op].pid == q ==> s.ops[op].handled
  {
    assert forall op: nat :: op < |s.ops| ==> OpOk(s.tracees, op, s.ops[op]);
  }

  lemma NoOtherSocket(s: State, t: State, p: Pid, q: Pid, src: Source)
    requires Active(s, {p}) && Mild(s, t, p) && q in s.tracees && q != p && Real(t, src, q)
    requires src.ByData? || src.ByAccept? || src.ByConnect?
    ensures src == SourceOf(s.net, s.tracees[q].cont)
  {
    assert ContOk(s.events, s.ops, s.net, q, s.tracees[q]);
    assert SlotsOk(s.tracees, s.ops, s.net.fds, src.sid, s.net.socks[src.sid]);
    if src.ByAccept? {
      assert IsFdOf(t.net.fds.sockets, t.net.socks[src.sid].accept.fd, src.sid);
    }
  }

  /** If that source is gone the thread is lost. */
  lemma WithoutSource(s: State, t: State, p: Pid, q: Pid)
    requires Active(s, {p}) && Mild(s, t, p) && q in s.tracees && q != p && !s.tracees[q].cont.InSelect?
    requires !Wakes(t, SourceOf(s.net, s.tracees[q].cont), q)
    ensures Lost(t, q)
  {
    NoOtherSource(s, t, p, q);
  }

  /** A thread in a select that has no timeout is lost if no closure of it is left. */
  lemma WithoutClosure(s: State, t: State, p: Pid, q: Pid, op: OpId)
    requires Active(s, {p}) && Mild(s, t, p) && q in s.tracees && q != p && s.tracees[q].cont == InSelect(op)
    requires s.ops[op].timeout.None? && forall f :: !ClosureOn(t.net, op, f)
    ensures Lost(t, q)
  {
    OnlyEventOf(s, q);
    NeverTimesOut(s, t, p, op);
    OnlyRecordOf(s, q, op);
    forall src ensures !Real(t, src, q) {
      if Real(t, src, q) && (src.ByData? || src.ByAccept? || src.ByConnect?) {
        NoOtherSocket(s, t, p, q, src);
      }
    }
  }

  lemma OnlyEventOf(s: State, q: Pid)
    requires EventsOk(s) && q in s.tracees && !s.tracees[q].cont.Resumes? && !s.tracees[q].cont.InSleep?
    ensures forall e :: e in s.events ==> s.events[e].what != Before(q) && s.events[e].what != SleepDone(q)
  {
    assert forall e :: e in s.events ==> EventOk(s.tracees, s.ops, e, s.events[e].what);
  }

  lemma OnlyRecordOf(s: State, q: Pid, op: OpId)
    requires OpsOk(s) && q in s.tracees && s.tracees[q].cont == InSelect(op)
    ensures forall i: nat :: i < |s.ops| && s.ops[i].pid == q && !s.ops[i].handled ==> i == op
  {
    assert forall i: nat :: i < |s.ops| ==> OpOk(s.tracees, i, s.ops[i]);
  }

  lemma NeverTimesOut(s: State, t: State, p: Pid, op: OpId)
    requires EventsOk(s) && MildQueue(s, t, p) && op < |s.ops| && s.ops[op].timeout.None?
    ensures forall e :: !TimesOut(t.events, op, e)
  {
    assert forall e :: e in s.events ==> EventOk(s.tracees, s.ops, e, s.events[e].what);
    assert forall e :: e in s.events ==> s.events[e].what != SelectTimeout(op);
    assert forall e :: e in t.events ==> EventFor(s, e, t.events[e], p);
  }

  /** Overwriting a receive closure that is still to resume a thread, or listening where it waits for data. */
  lemma RecvVictim(s: State, t: State, p: Pid, fd: Fd)
    requires Active(s, {p}) && Mild(s, t, p) && Known(s.net, fd)
    requires t.net.fds.sockets == s.net.fds.sockets
    requires var k, l := s.net.socks[s.net.fds.sockets[fd]], t.net.socks[s.net.fds.sockets[fd]];
             !RecvIdle(s.ops, k.recv) &&
             ((l.recv != k.recv && !l.listens) ||
              (l.listens && (l.accept == k.accept || l.accept == DefaultAccept(fd))))
    ensures var r := s.net.socks[s.net.fds.sockets[fd]].recv;
            if r.ReadWait? then Lost(t, r.pid) else Deaf(t, r.op, fd)
  {
    var sid := s.net.fds.sockets[fd];
    var r := s.net.socks[sid].recv;
    assert SlotsOk(s.tracees, s.ops, s.net.fds, sid, s.net.socks[sid]);
    if r.ReadWait? {
      WithoutSource(s, t, p, r.pid);
    } else {
      Unanswered(s, r.op);
    }
  }

  /** Overwriting an accept closure that is still to resume a thread, or no longer listening where it waits. */
  lemma AcceptVictim(s: State, t: State, p: Pid, fd: Fd)
    requires Active(s, {p}) && Mild(s, t, p) && Known(s.net, fd) && t.net.fds.sockets == s.net.fds.sockets
    requires var k, l := s.net.socks[s.net.fds.sockets[fd]], t.net.socks[s.net.fds.sockets[fd]];
             !AcceptIdle(s.tracees, s.ops, k.accept) &&
             ((l.accept != k.accept && l.listens) || (!l.listens && l.recv == k.recv))
    ensures var a := s.net.socks[s.net.fds.sockets[fd]].accept;
            if a.AcceptWait? then Lost(t, a.pid) else Deaf(t, a.op, fd)
  {
    var sid := s.net.fds.sockets[fd];
    var a := s.net.socks[sid].accept;
    assert SlotsOk(s.tracees, s.ops, s.net.fds, sid, s.net.socks[sid]);
    assert IsFdOf(s.net.fds.sockets, fd, sid);
    if a.AcceptWait? {
      WithoutSource(s, t, p, a.pid);
    } else {
      Unanswered(s, a.op);
    }
  }

  lemma SendVictim(s: State, t: State, p: Pid, fd: Fd)
    requires Active(s, {p}) && Mild(s, t, p) && Known(s.net, fd) && t.net.fds.sockets == s.net.fds.sockets
    requires var c := s.net.socks[s.net.fds.sockets[fd]].send;
             !SendIdle(s.ops, c) && t.net.socks[s.net.fds.sockets[fd]].send != c
    ensures Deaf(t, s.net.socks[s.net.fds.sockets[fd]].send.op, fd)
  {
    var sid := s.net.fds.sockets[fd];
    assert SlotsOk(s.tracees, s.ops, s.net.fds, sid, s.net.socks[sid]);
    Unanswered(s, s.net.socks[sid].send.op);
  }

  /** Overwriting the closure of a netlink socket, or making its descriptor readable or something else in silence. */
  lemma NlVictim(s: State, t: State, p: Pid, fd: Fd)
    requires Active(s, {p}) && Around(s, t, p) && KnownNl(s.net, fd)
    requires var r := s.net.nls[s.net.fds.netlinks[fd]].recv;
             !NlIdle(s.ops, r) && !WatchesR(t.net, r.op, fd)
    ensures Deaf(t, s.net.nls[s.net.fds.netlinks[fd]].recv.op, fd)
  {
    NlWatcher(s, fd);
  }

  lemma ConnectVictim(s: State, t: State, p: Pid, fd: Fd)
    requires Active(s, {p}) && Mild(s, t, p) && Known(s.net, fd) && t.net.fds.sockets == s.net.fds.sockets
    requires s.net.socks[s.net.fds.sockets[fd]].connecting
    requires t.net.socks[s.net.fds.sockets[fd]].connect == ConnectWait(p, fd)
    ensures Lost(t, s.net.socks[s.net.fds.sockets[fd]].connect.pid)
  {
    var sid := s.net.fds.sockets[fd];
    assert SlotsOk(s.tracees, s.ops, s.net.fds, sid, s.net.socks[sid]);
    WithoutSource(s, t, p, s.net.socks[sid].connect.pid);
  }

  /** A thread that waits on a descriptor that is closed. */
  lemma ClosedVictim(s: State, t: State, p: Pid, q: Pid, fd: Fd)
    requires Active(s, {p}) && Mild(s, t, p) && q in s.tracees && fd in WaitFds(s.ops, s.tracees[q].cont)
    requires fd !in t.net.fds.sockets && fd !in t.net.fds.netlinks
    ensures if s.tracees[q].cont.InSelect? then Deaf(t, s.tracees[q].cont.op, fd) else Lost(t, q)
  {
    var c := s.tracees[q].cont;
    assert ContOk(s.events, s.ops, s.net, q, s.tracees[q]);
    if !c.InSelect? {
      var sid := s.net.fds.sockets[fd];
      assert forall f :: !IsFdOf(t.net.fds.sockets, f, sid) by {
        assert IsFdOf(s.net.fds.sockets, fd, sid);
      }
      WithoutSource(s, t, p, q);
    }
  }

  // ---- Call by call --------------------------------------------------------------------------

  /** The state after a call and its status code. */
  ghost function After(s: State, p: Pid, c: Call, ans: Answer): State {
    var r := Handle(s, p, c, ans);
    ProcessStatusCode(r.s, r.code, p)
  }

  lemma AfterAround(s: State, p: Pid, c: Call, ans: Answer)
    requires Ordinary(c)
    ensures Around(s, After(s, p, c, ans), p) && After(s, p, c, ans).net == Handle(s, p, c, ans).s.net
  {
    var r := Handle(s, p, c, ans);
    CallFrame(s, p, c, ans);
    StatusFrame(r, p);
    StatusNet(r, p);
  }

  // A call that may wait, and what it leaves of the event queue.

  lemma WaitsForm(s: State, p: Pid, c: Call, ans: Answer)
    requires Serving(s, p, c) && (c.Read? || c.RecvFrom? || c.Accept?) && !CallAllowed(s, p, c, ans)
    ensures var sid, t := s.net.fds.sockets[c.fd], After(s, p, c, ans);
            var k := s.net.socks[sid];
            var l := if c.Accept? then k.(accept := AcceptWait(p, c.fd)) else k.(recv := ReadWait(p, c.fd));
            t == SetCont(SetSock(s, sid, l), p, if c.Accept? then InAccept(c.fd) else InRecv(c.fd))
  {
  }

  lemma WaitsMild(s: State, p: Pid, c: Call, ans: Answer)
    requires Serving(s, p, c) && (c.Read? || c.RecvFrom? || c.Accept?) && !CallAllowed(s, p, c, ans)
    ensures var sid, t := s.net.fds.sockets[c.fd], After(s, p, c, ans);
            var k := s.net.socks[sid];
            var l := if c.Accept? then k.(accept := AcceptWait(p, c.fd)) else k.(recv := ReadWait(p, c.fd));
            Mild(s, t, p) && t.events == s.events && t.ops == s.ops && t.net == s.net.(socks := s.net.socks[sid := l])
  {
    WaitsForm(s, p, c, ans);
    SockMild(s.net, After(s, p, c, ans).net, s.net.fds.sockets[c.fd], p);
  }

  lemma CloseMild(s: State, p: Pid, c: Call, ans: Answer)
    requires Serving(s, p, c) && c.Close? && (Known(s.net, c.fd) || KnownNl(s.net, c.fd))
    ensures var t := After(s, p, c, ans);
            Mild(s, t, p) && c.fd !in t.net.fds.sockets && c.fd !in t.net.fds.netlinks
  {
    AfterAround(s, p, c, ans);
    ClosedNet(s, p, c.fd, ans);
    CloseQueue(s, p, c, ans);
  }

  lemma AnsweredQueue(s: State, t: State, p: Pid, result: Result, stray: Call)
    requires MildQueue(s, t, p)
    ensures MildQueue(s, Resume(Fake(t, p, result, stray), p), p)
  {
  }

  lemma CloseQueue(s: State, p: Pid, c: Call, ans: Answer)
    requires c.Close?
    ensures MildQueue(s, After(s, p, c, ans), p)
  {
    AnsweredQueue(s, s, p, Kernel, ans.stray);
    if c.fd in s.net.fds.sockets {
      AnsweredQueue(s, CloseSocket(s, c.fd), p, Value(0), ans.stray);
    }
    AnsweredQueue(s, WithFds(s, NetlinkClosed(s.net.fds, c.fd)), p, Value(0), ans.stray);
    AnsweredQueue(s, WithFds(s, RandomClosed(s.net.fds, c.fd)), p, Value(0), ans.stray);
  }

  lemma ListenQueue(s: State, p: Pid, c: Call, ans: Answer)
    requires c.Listen? && Known(s.net, c.fd)
    ensures MildQueue(s, After(s, p, c, ans), p)
  {
    var fd, sid := c.fd, s.net.fds.sockets[c.fd];
    var s1 := WithFds(s, s.net.fds.(listening := s.net.fds.listening + {fd}));
    AnsweredQueue(s, s, p, Value(-EOPNOTSUPP), ans.stray);
    AnsweredQueue(s, s1, p, Value(ans.ret), ans.stray);
    AnsweredQueue(s, SetSock(s1, sid, Listening(s.net.socks[sid], fd)), p, Value(0), ans.stray);
  }

  lemma ClosedNet(s: State, p: Pid, fd: Fd, ans: Answer)
    requires FdOk(s.net) && (Known(s.net, fd) || KnownNl(s.net, fd))
    ensures HandleClose(s, p, fd, ans).s.net ==
            s.net.(fds := if fd in s.net.fds.sockets then SocketClosed(s.net.fds, fd) else NetlinkClosed(s.net.fds, fd))
  {
    if fd in s.net.fds.sockets {
      AnsweredNet(CloseSocket(s, fd), p, Value(0), Success, ans);
    } else {
      AnsweredNet(WithFds(s, NetlinkClosed(s.net.fds, fd)), p, Value(0), Success, ans);
    }
  }

  lemma ListenMild(s: State, p: Pid, c: Call, ans: Answer)
    requires Serving(s, p, c) && c.Listen? && !CallAllowed(s, p, c, ans)
    ensures var t, k := After(s, p, c, ans), s.net.socks[s.net.fds.sockets[c.fd]];
            Mild(s, t, p) && t.net.fds == s.net.fds.(listening := s.net.fds.listening + {c.fd}) &&
            t.net.socks[s.net.fds.sockets[c.fd]] == Listening(k, c.fd)
  {
    AfterAround(s, p, c, ans);
    ListenedNet(s, p, c.fd, ans);
    ListenQueue(s, p, c, ans);
    SockMild(s.net, After(s, p, c, ans).net, s.net.fds.sockets[c.fd], p);
  }

  /** Of one socket only, and with the same descriptors open. */
  lemma SockMild(n: Net, m: Net, sid: SockId, p: Pid)
    requires sid < |n.socks| && |m.socks| == |n.socks| && m.socks == n.socks[sid := m.socks[sid]]
    requires ClosuresFor(n.socks[sid], m.socks[sid], p)
    requires m.fds.sockets == n.fds.sockets
    ensures MildNet(n, m, p)
  {
  }

  lemma ListenedNet(s: State, p: Pid, fd: Fd, ans: Answer)
    requires fd in s.net.fds.tcp && fd !in s.net.fds.listening && Known(s.net, fd) && ans.ret == 0
    ensures var sid := s.net.fds.sockets[fd];
            var k, m := s.net.socks[sid], HandleListen(s, p, fd, ans).s.net;
            m.fds == s.net.fds.(listening := s.net.fds.listening + {fd}) &&
            m.socks == s.net.socks[sid := Listening(k, fd)]
  {
    var s1, sid := WithFds(s, s.net.fds.(listening := s.net.fds.listening + {fd})), s.net.fds.sockets[fd];
    AnsweredNet(SetSock(s1, sid, Listening(s.net.socks[sid], fd)), p, Value(0), Success, ans);
  }

  lemma ConnectMild(s: State, p: Pid, c: Call, ans: Answer)
    requires Serving(s, p, c) && c.Connect? && !CallAllowed(s, p, c, ans)
    ensures var t, k := After(s, p, c, ans), s.net.socks[s.net.fds.sockets[c.fd]];
            Mild(s, t, p) && t.net.fds.sockets == s.net.fds.sockets &&
            t.net.socks[s.net.fds.sockets[c.fd]] == Tried(k, p, c.fd, ans)
  {
    AfterAround(s, p, c, ans);
    ConnectedNet(s, p, c.fd, ans);
    ConnectQueue(s, p, c, ans);
    SockMild(s.net, After(s, p, c, ans).net, s.net.fds.sockets[c.fd], p);
  }

  /** The socket when connect returns to the event loop. */
  function Tried(k: Sock, p: Pid, fd: Fd, ans: Answer): Sock {
    var l := Attempted(k, p, fd, ans);
    if ans.connected.Some? then l.(connecting := false) else l
  }

  lemma ConnectQueue(s: State, p: Pid, c: Call, ans: Answer)
    requires c.Connect? && c.inet && Known(s.net, c.fd)
    ensures MildQueue(s, After(s, p, c, ans), p)
  {
    var sid := s.net.fds.sockets[c.fd];
    var k := Attempted(s.net.socks[sid], p, c.fd, ans);
    var s1 := SetSock(SetCont(SetSock(s, sid, k), p, InConnect(c.fd)), sid, k.(connecting := false));
    AnsweredQueue(s, WithFds(s1, s.net.fds.(connected := s.net.fds.connected + {c.fd})), p, Value(0), ans.stray);
    AnsweredQueue(s, s1, p, Value(-1), ans.stray);
  }

  lemma ConnectedNet(s: State, p: Pid, fd: Fd, ans: Answer)
    requires Known(s.net, fd)
    ensures var m, sid := HandleConnect(s, p, fd, true, ans).s.net, s.net.fds.sockets[fd];
            m.fds == s.net.fds.(connected := m.fds.connected) && |m.socks| == |s.net.socks| &&
            m.socks == s.net.socks[sid := Tried(s.net.socks[sid], p, fd, ans)]
  {
    var sid := s.net.fds.sockets[fd];
    var s1 := SetCont(SetSock(s, sid, Attempted(s.net.socks[sid], p, fd, ans)), p, InConnect(fd));
    if ans.connected.Some? {
      ConnectEndNet(s1, sid, ans.connected.value, ans);
    }
  }

  lemma ConnectEndNet(s: State, sid: SockId, ok: bool, ans: Answer)
    requires sid < |s.net.socks| && s.net.socks[sid].connect.ConnectWait?
    ensures OnConnect(s, sid, ok, ans).net == ConnectNet(s.net, sid, ok, s.net.socks[sid].connect.fd)
  {
  }

  lemma SelectMild(s: State, p: Pid, c: Call, ans: Answer)
    requires Serving(s, p, c) && c.Select? && !CallAllowed(s, p, c, ans)
    ensures var t := After(s, p, c, ans);
            Mild(s, t, p) &&
            t.net == WatchedNet(s.net, |s.ops|, WatchR(s.net.fds, c.rset), WatchW(s.net.fds, c.wset)) &&
            t.ops == s.ops + [NewSelect(s, p, c.rset, c.wset, c.timeout)]
  {
    AfterAround(s, p, c, ans);
    SelectedNet(s, p, c, ans);
    WatchedMild(s.net, |s.ops|, WatchR(s.net.fds, c.rset), WatchW(s.net.fds, c.wset), p);
    SelectQueue(s, p, c, ans);
  }

  lemma WatchedMild(n: Net, op: OpId, wr: set<Fd>, ww: set<Fd>, p: Pid)
    ensures MildNet(n, WatchedNet(n, op, wr, ww), p)
  {
  }

  lemma SelectQueue(s: State, p: Pid, c: Call, ans: Answer)
    requires c.Select? && !SelectFits(s, c)
    ensures MildQueue(s, After(s, p, c, ans), p)
  {
  }

  lemma SelectedNet(s: State, p: Pid, c: Call, ans: Answer)
    requires c.Select? && !SelectFits(s, c)
    ensures var t := Handle(s, p, c, ans).s;
            t.net == WatchedNet(s.net, |s.ops|, WatchR(s.net.fds, c.rset), WatchW(s.net.fds, c.wset)) &&
            t.ops == s.ops + [NewSelect(s, p, c.rset, c.wset, c.timeout)]
  {
  }

  // What is lost.

  /** Another receive: whoever waited for the data is; where ns-3 listens, and no data come, the caller itself. */
  lemma ReceiveLoses(s: State, p: Pid, c: Call, ans: Answer)
    requires Serving(s, p, c) && (c.Read? || c.RecvFrom?) && !CallAllowed(s, p, c, ans)
    ensures var t, r := After(s, p, c, ans), s.net.socks[s.net.fds.sockets[c.fd]].recv;
            if ReadsListener(s.net, c.fd) then Lost(t, p)
            else if r.ReadWait? then Lost(t, r.pid) else Deaf(t, r.op, c.fd)
  {
    var sid := s.net.fds.sockets[c.fd];
    WaitsMild(s, p, c, ans);
    if ReadsListener(s.net, c.fd) {
      WaitsForm(s, p, c, ans);
      CallerLost(s, After(s, p, c, ans), p, c);
    } else {
      assert s.net.socks[sid].recv != ReadWait(p, c.fd) by {
        assert SlotsOk(s.tracees, s.ops, s.net.fds, sid, s.net.socks[sid]);
      }
      RecvVictim(s, After(s, p, c, ans), p, c.fd);
    }
  }

  /** A thread that waits on a socket where what it waits for does not come, and in no other way. */
  lemma CallerLost(s: State, t: State, p: Pid, c: Call)
    requires Serving(s, p, c) && (c.Read? || c.RecvFrom? || c.Accept? || c.Connect?) && Known(s.net, c.fd)
    requires t.events == s.events && t.ops == s.ops && p in t.tracees && t.tracees[p].stop == AtEntry(c)
    requires |t.net.socks| == |s.net.socks| && t.net.fds.sockets == s.net.fds.sockets
    requires var sid := s.net.fds.sockets[c.fd];
             var k, l := s.net.socks[sid], t.net.socks[sid];
             t.net.socks == s.net.socks[sid := l] && (l.recv == k.recv || l.listens) &&
             (l.connecting ==> k.connecting && l.connect == k.connect) && (c.Accept? ==> !l.listens)
    ensures Lost(t, p)
  {
    forall src ensures !Real(t, src, p) {
      match src
      case ByEvent(e) => if e in s.events { assert EventOk(s.tracees, s.ops, e, s.events[e].what); }
      case BySelect(op) => if op < |s.ops| { assert OpOk(s.tracees, op, s.ops[op]); }
      case ByAccept(_) =>
      case _ =>
        if src.sid < |s.net.socks| {
          assert SlotsOk(s.tracees, s.ops, s.net.fds, src.sid, s.net.socks[src.sid]);
        }
    }
  }

  /** A write that blocks: the caller. */
  lemma WriteLoses(s: State, p: Pid, c: Call, ans: Answer)
    requires Serving(s, p, c) && c.Write? && !CallAllowed(s, p, c, ans)
    ensures Lost(After(s, p, c, ans), p)
  {
    BlockedWriteIsLost(s, p, c.fd, c.count, 0, ans, ans);
  }

  /** A close: whoever waits on the descriptor. */
  lemma CloseLoses(s: State, p: Pid, c: Call, ans: Answer)
    requires Serving(s, p, c) && c.Close? && !CallAllowed(s, p, c, ans)
    ensures exists q :: q in s.tracees && c.fd in WaitFds(s.ops, s.tracees[q].cont)
    ensures forall q :: q in s.tracees && c.fd in WaitFds(s.ops, s.tracees[q].cont) ==>
                          if s.tracees[q].cont.InSelect? then Deaf(After(s, p, c, ans), s.tracees[q].cont.op, c.fd)
                          else Lost(After(s, p, c, ans), q)
  {
    CloseMild(s, p, c, ans);
    if Unwaited(s, {c.fd}) {
      UnwaitedIdle(s, c.fd);
      assert false;
    }
    forall q | q in s.tracees && c.fd in WaitFds(s.ops, s.tracees[q].cont)
      ensures if s.tracees[q].cont.InSelect? then Deaf(After(s, p, c, ans), s.tracees[q].cont.op, c.fd)
              else Lost(After(s, p, c, ans), q)
    {
      ClosedVictim(s, After(s, p, c, ans), p, q, c.fd);
    }
  }

  /** A listen that ns-3 grants: whoever waits for data. */
  lemma ListenLoses(s: State, p: Pid, c: Call, ans: Answer)
    requires Serving(s, p, c) && c.Listen? && !CallAllowed(s, p, c, ans)
    ensures var t, r := After(s, p, c, ans), s.net.socks[s.net.fds.sockets[c.fd]].recv;
            if r.ReadWait? then Lost(t, r.pid) else Deaf(t, r.op, c.fd)
  {
    ListenMild(s, p, c, ans);
    RecvVictim(s, After(s, p, c, ans), p, c.fd);
  }

  /**
   * Another connect: whoever waited for the first attempt. One that ns-3 refuses without a word: the caller. One that
   * ends listening: whoever waited for connections.
   */
  lemma ConnectLoses(s: State, p: Pid, c: Call, ans: Answer)
    requires Serving(s, p, c) && c.Connect? && !CallAllowed(s, p, c, ans)
    ensures var t, k := After(s, p, c, ans), s.net.socks[s.net.fds.sockets[c.fd]];
            if k.connecting then Lost(t, k.connect.pid)
            else if !Begins(ans) then Lost(t, p)
            else if k.accept.AcceptWait? then Lost(t, k.accept.pid) else Deaf(t, k.accept.op, c.fd)
  {
    var k := s.net.socks[s.net.fds.sockets[c.fd]];
    ConnectMild(s, p, c, ans);
    if k.connecting {
      ConnectVictim(s, After(s, p, c, ans), p, c.fd);
    } else if !Begins(ans) {
      RefusedForm(s, p, c, ans);
      CallerLost(s, After(s, p, c, ans), p, c);
    } else {
      AcceptVictim(s, After(s, p, c, ans), p, c.fd);
    }
  }

  lemma RefusedForm(s: State, p: Pid, c: Call, ans: Answer)
    requires ConnectRefused(s.net, c, ans)
    ensures var sid := s.net.fds.sockets[c.fd];
            After(s, p, c, ans) ==
            SetCont(SetSock(s, sid, Attempted(s.net.socks[sid], p, c.fd, ans)), p, InConnect(c.fd))
  {
  }

  /**
   * Another accept: whoever waited for the connection; where ns-3 does not listen, and none comes, the caller itself.
   */
  lemma AcceptLoses(s: State, p: Pid, c: Call, ans: Answer)
    requires Serving(s, p, c) && c.Accept? && !CallAllowed(s, p, c, ans)
    ensures var t, a := After(s, p, c, ans), s.net.socks[s.net.fds.sockets[c.fd]].accept;
            if Refused(s.net, c.fd) then Lost(t, p) else if a.AcceptWait? then Lost(t, a.pid) else Deaf(t, a.op, c.fd)
  {
    WaitsMild(s, p, c, ans);
    if Refused(s.net, c.fd) {
      WaitsForm(s, p, c, ans);
      CallerLost(s, After(s, p, c, ans), p, c);
    } else {
      AcceptVictim(s, After(s, p, c, ans), p, c.fd);
    }
  }

  /** Another select: whoever waited on one of the descriptors; where ns-3 refused to listen it is deaf itself. */
  lemma SelectLoses(s: State, p: Pid, c: Call, ans: Answer)
    requires Serving(s, p, c) && c.Select? && !CallAllowed(s, p, c, ans)
    ensures if SelectUnheard(s.net, c) then exists f :: Deaf(After(s, p, c, ans), |s.ops|, f)
            else (exists q :: Lost(After(s, p, c, ans), q)) || (exists op, f :: Deaf(After(s, p, c, ans), op, f))
  {
    SelectMild(s, p, c, ans);
    if SelectUnheard(s.net, c) {
      var f :| f in WatchR(s.net.fds, c.rset) && Refused(s.net, f);
      SelectDeaf(s, After(s, p, c, ans), p, c, f);
    } else {
      SelectVictim(s, After(s, p, c, ans), p, WatchR(s.net.fds, c.rset), WatchW(s.net.fds, c.wset));
    }
  }

  /** It waits for connections where data may come. */
  lemma SelectDeaf(s: State, t: State, p: Pid, c: Call, f: Fd)
    requires Core(s) && c.Select? && f in WatchR(s.net.fds, c.rset) && Refused(s.net, f)
    requires t.net == WatchedNet(s.net, |s.ops|, WatchR(s.net.fds, c.rset), WatchW(s.net.fds, c.wset))
    requires t.ops == s.ops + [NewSelect(s, p, c.rset, c.wset, c.timeout)]
    ensures Deaf(t, |s.ops|, f)
  {
    WatchedSockOf(s.net, f, |s.ops|, WatchR(s.net.fds, c.rset), WatchW(s.net.fds, c.wset));
    SlotNotNew(s, s.net.fds.sockets[f]);
  }

  lemma SelectVictim(s: State, t: State, p: Pid, wr: set<Fd>, ww: set<Fd>)
    requires Active(s, {p}) && Mild(s, t, p) && !SlotsIdle(s, wr, ww) && t.net == WatchedNet(s.net, |s.ops|, wr, ww)
    requires forall f :: f in wr ==> !Refused(s.net, f)
    ensures (exists q :: Lost(t, q)) || (exists op, f :: Deaf(t, op, f))
  {
    var n, op := s.net, |s.ops|;
    if f :| f in ww && Known(n, f) && !SendIdle(s.ops, n.socks[n.fds.sockets[f]].send) {
      WatchedSockOf(n, f, op, wr, ww);
      SlotNotNew(s, n.fds.sockets[f]);
      SendVictim(s, t, p, f);
    } else if f :| f in wr && KnownNl(n, f) && !NlIdle(s.ops, n.nls[n.fds.netlinks[f]].recv) {
      WatchedNlOf(n, f, op, wr);
      NlWatcher(s, f);
      NlVictim(s, t, p, f);
    } else {
      var f :| f in wr && Known(n, f) &&
               var k := n.socks[n.fds.sockets[f]];
               if k.listens then !AcceptIdle(s.tracees, s.ops, k.accept) else !RecvIdle(s.ops, k.recv);
      WatchedSockOf(n, f, op, wr, ww);
      SlotNotNew(s, n.fds.sockets[f]);
      if n.socks[n.fds.sockets[f]].listens {
        AcceptVictim(s, t, p, f);
      } else {
        RecvVictim(s, t, p, f);
      }
    }
  }

  /** The closures of a new select differ from all that are there. */
  lemma SlotNotNew(s: State, sid: SockId)
    requires Core(s) && sid < |s.net.socks|
    ensures var k, op := s.net.socks[sid], |s.ops|;
            (k.send.SelectSend? ==> k.send.op != op) && (k.recv.SelectRecv? ==> k.recv.op != op) &&
            (k.accept.SelectAccept? ==> k.accept.op != op)
  {
    assert SlotsOk(s.tracees, s.ops, s.net.fds, sid, s.net.socks[sid]);
  }

  // ---- Netlink -------------------------------------------------------------------------------

  /** A call on somebody else's netlink socket: the caller is resumed at its entry stop. */
  lemma OwnerLoses(s: State, p: Pid, c: Call, ans: Answer)
    requires Serving(s, p, c) && !OwnCall(s.net, p, c) && !After(s, p, c, ans).halted
    ensures Astray(After(s, p, c, ans), p)
  {
    NotAnswered(s, p, c, ans);
  }

  /** A request of whose replies a waiting thread does not hear. */
  lemma SendLoses(s: State, p: Pid, c: Call, ans: Answer)
    requires Serving(s, p, c) && (c.SendTo? || c.SendMsg?) && OwnCall(s.net, p, c) && !SendHeard(s, c)
    requires !After(s, p, c, ans).halted
    ensures Deaf(After(s, p, c, ans), s.net.nls[s.net.fds.netlinks[c.fd]].recv.op, c.fd)
  {
    var fd, t := c.fd, After(s, p, c, ans);
    var r := s.net.nls[s.net.fds.netlinks[fd]].recv;
    var walked := if c.SendTo? then WalkMsgs(c.buf, s.app.devices) else WalkBuffers(c.iov, s.app.devices);
    assert c.SendTo? && c.flags != NoFlags ==> Handle(s, p, c, ans).code == Error;
    SilentReplies(walked.value);
    NlWatcher(s, fd);
    QuietNet(s, p, c, walked, ans);
    NlVictim(s, t, p, fd);
  }

  lemma QuietNet(s: State, p: Pid, c: Call, walked: Outcome<seq<Effect>>, ans: Answer)
    requires FdOk(s.net) && (c.SendTo? || c.SendMsg?) && KnownNl(s.net, c.fd) && OwnCall(s.net, p, c)
    requires walked == if c.SendTo? then WalkMsgs(c.buf, s.app.devices) else WalkBuffers(c.iov, s.app.devices)
    requires walked.Fine? && !Notifies(walked.value) && RepliesOf(walked.value) != []
    requires c.SendTo? ==> c.flags == NoFlags
    ensures var t := After(s, p, c, ans);
            Around(s, t, p) && KnownNl(t.net, c.fd) && Readable(t.net, c.fd)
  {
    var n := s.net.fds.netlinks[c.fd];
    var s1 := Sent(s, n, walked.value, s.net.nls[n].recv);
    var returned := if c.SendTo? then LeftoverValue(c.buf) else NL.TotalLen(c.iov);
    assert Handle(s, p, c, ans) == Answered(s1, p, Value(returned), Success, ans);
    AnsweredNet(s1, p, Value(returned), Success, ans);
    StatusNet(Handle(s, p, c, ans), p);
    QuietAround(s, s1, p, Value(returned), ans);
  }


  lemma QuietAround(s: State, s1: State, p: Pid, result: Result, ans: Answer)
    requires s1.ops == s.ops && s1.tracees == s.tracees
    ensures var r := Answered(s1, p, result, Success, ans); Around(s, ProcessStatusCode(r.s, r.code, p), p)
  {
  }

  // ---- All calls -----------------------------------------------------------------------------

  lemma HarmedIsUnhealthy(t: State)
    requires (exists q :: Lost(t, q)) || (exists op, f :: Deaf(t, op, f)) || (exists q :: Astray(t, q))
    ensures !Healthy(t)
  {
  }

  lemma WaitingCallLoses(s: State, p: Pid, c: Call, ans: Answer)
    requires Serving(s, p, c) && !CallAllowed(s, p, c, ans) && (c.Listen? || c.Connect? || c.Accept? || c.Select?)
    ensures !Healthy(After(s, p, c, ans))
  {
    if c.Listen? {
      ListenLoses(s, p, c, ans);
    } else if c.Connect? {
      ConnectLoses(s, p, c, ans);
    } else if c.Accept? {
      AcceptLoses(s, p, c, ans);
    } else {
      SelectLoses(s, p, c, ans);
    }
    HarmedIsUnhealthy(After(s, p, c, ans));
  }

  lemma NetlinkCallLoses(s: State, p: Pid, c: Call, ans: Answer)
    requires Serving(s, p, c) && !CallAllowed(s, p, c, ans) && !After(s, p, c, ans).halted
    requires c.SendTo? || c.SendMsg? || c.RecvMsg?
    ensures !Healthy(After(s, p, c, ans))
  {
    if !OwnCall(s.net, p, c) {
      OwnerLoses(s, p, c, ans);
    } else {
      SendLoses(s, p, c, ans);
    }
    HarmedIsUnhealthy(After(s, p, c, ans));
  }

  lemma TransferLoses(s: State, p: Pid, c: Call, ans: Answer)
    requires Serving(s, p, c) && !CallAllowed(s, p, c, ans) && (c.Read? || c.RecvFrom? || c.Write? || c.Close?)
    ensures !Healthy(After(s, p, c, ans))
  {
    if c.Read? || c.RecvFrom? {
      ReceiveLoses(s, p, c, ans);
    } else if c.Write? {
      WriteLoses(s, p, c, ans);
    } else {
      CloseLoses(s, p, c, ans);
    }
    HarmedIsUnhealthy(After(s, p, c, ans));
  }

  /** A call that is not allowed does harm to a thread. */
  lemma CallLoses(s: State, p: Pid, c: Call, ans: Answer)
    requires Serving(s, p, c) && !CallAllowed(s, p, c, ans) && !After(s, p, c, ans).halted
    ensures !Healthy(After(s, p, c, ans))
  {
    if c.Read? || c.RecvFrom? || c.Write? || c.Close? {
      TransferLoses(s, p, c, ans);
    } else if c.SendTo? || c.SendMsg? || c.RecvMsg? {
      NetlinkCallLoses(s, p, c, ans);
    } else {
      WaitingCallLoses(s, p, c, ans);
    }
  }

  /** The invariant and what it is for stand and fall together, with the condition. */
  ghost predicate Matches(t: State, condition: bool) {
    t.halted || ((Inv(t) <==> condition) && (Healthy(t) <==> condition))
  }

  lemma MatchesIf(t: State, condition: bool)
    requires condition ==> t.halted || Inv(t)
    requires !condition ==> t.halted || !Healthy(t)
    ensures Matches(t, condition)
  {
    if Inv(t) {
      InvHealthy(t);
    }
  }

  /** Whatever the call: unless the simulator stops, every thread can still go on exactly if the call is allowed. */
  lemma CallExact(s: State, p: Pid, c: Call, ans: Answer)
    requires Serving(s, p, c) && (c.Clone? ==> ans.tid !in s.tracees)
    ensures Matches(After(s, p, c, ans), CallAllowed(s, p, c, ans))
  {
    if CallAllowed(s, p, c, ans) {
      HandleOk(s, p, c, ans);
      StatusOk(Handle(s, p, c, ans), p);
    } else if !After(s, p, c, ans).halted {
      CallLoses(s, p, c, ans);
    }
    MatchesIf(After(s, p, c, ans), CallAllowed(s, p, c, ans));
  }

  // ---- All steps -----------------------------------------------------------------------------

  lemma FreshExact(s: State, e: EvId, p: Pid, next: Call, ans: Answer)
    requires Inv(s) && IsNext(s.events, e) && s.events[e].what == Before(p) && p in s.tracees &&
             s.tracees[p].stop.AtExit?
    requires next.Clone? ==> ans.tid !in s.tracees
    ensures Matches(After(Dispatched(s, e, p, next), p, next, ans), CallAllowed(s, p, next, ans))
  {
    assert EventOk(s.tracees, s.ops, e, s.events[e].what);
    DispatchedActive(s, e, p, next);
    StillAllowed(s, Dispatched(s, e, p, next), p, next, ans);
    CallExact(Dispatched(s, e, p, next), p, next, ans);
  }

  lemma AgainKeeps(s: State, e: EvId, p: Pid, next: Call, ans: Answer)
    requires Inv(s) && IsNext(s.events, e) && s.events[e].what == Before(p)
    requires p in s.tracees && s.tracees[p].stop.AtEntry? && s.tracees[p].stop != AtEntry(Exit)
    ensures var t := After(Dispatched(s, e, p, next), p, s.tracees[p].stop.call, ans); t.halted || Inv(t)
  {
    SecondDispatch(s, e, p, next, ans);
    StatusOk(Handle(Dispatched(s, e, p, next), p, s.tracees[p].stop.call, ans), p);
  }

  /** A thread that is dispatched again for a call is in one of the clock calls, and those are always allowed. */
  lemma AgainExact(s: State, e: EvId, p: Pid, next: Call, ans: Answer)
    requires Inv(s) && IsNext(s.events, e) && s.events[e].what == Before(p)
    requires p in s.tracees && s.tracees[p].stop.AtEntry? && s.tracees[p].stop != AtEntry(Exit)
    ensures var c := s.tracees[p].stop.call;
            Matches(After(Dispatched(s, e, p, next), p, c, ans), CallAllowed(s, p, c, ans))
  {
    AgainKeeps(s, e, p, next, ans);
    AgainAllowed(s, e, p, ans);
    MatchesIf(After(Dispatched(s, e, p, next), p, s.tracees[p].stop.call, ans), true);
  }

  lemma AgainAllowed(s: State, e: EvId, p: Pid, ans: Answer)
    requires Inv(s) && e in s.events && s.events[e].what == Before(p)
    requires p in s.tracees && s.tracees[p].stop.AtEntry? && s.tracees[p].stop != AtEntry(Exit)
    ensures CallAllowed(s, p, s.tracees[p].stop.call, ans)
  {
    ParkedInClock(s, e, p);
  }

  lemma DispatchExact(s: State, e: EvId, next: Call, ans: Answer)
    requires Inv(s) && Enabled(s, Step(Fire(e, next), ans)) && CaughtBy(s, e, next).Some?
    ensures Matches(Next(s, Step(Fire(e, next), ans)),
                    CallAllowed(s, s.events[e].what.pid, CaughtBy(s, e, next).value, ans))
  {
    var p := s.events[e].what.pid;
    EE.DispatchForm(s, e, next, ans);
    if s.tracees[p].stop.AtExit? {
      FreshExact(s, e, p, next, ans);
    } else {
      AgainExact(s, e, p, next, ans);
    }
  }

  import EE = EndToEnd

  lemma DataStepExact(s: State, step: Step)
    requires Inv(s) && Enabled(s, step) && step.act.Data?
    ensures Matches(Next(s, step), Disciplined(s, step))
  {
    var s1, sid := s.(now := step.act.at), step.act.sid;
    TimePasses(s, step.act.at);
    if !RecvIdle(s.ops, s.net.socks[sid].recv) && s.net.socks[sid].recv.SelectRecv? {
      DataExact(s1, sid, step.act.rx, step.ans);
    } else {
      DataKeeps(s1, sid, step.act.rx, step.ans);
    }
    if exists q :: Astray(Next(s, step), q) {
      HarmedIsUnhealthy(Next(s, step));
    }
    MatchesIf(Next(s, step), Disciplined(s, step));
  }

  lemma ConnectionStepExact(s: State, step: Step)
    requires Inv(s) && Enabled(s, step) && step.act.Connection?
    ensures Matches(Next(s, step), Disciplined(s, step))
  {
    var s1, sid := s.(now := step.act.at), step.act.sid;
    TimePasses(s, step.act.at);
    if !s.net.socks[sid].accept.AcceptWait? {
      ConnectionKeeps(s1, sid, step.ans);
    } else if s.net.fds.available != {} {
      ConnectionExact(s1, sid, step.ans);
      if !Disciplined(s, step) {
        StrayHarms(Next(s, step), s.net.socks[sid].accept.pid);
      }
    }
    MatchesIf(Next(s, step), Disciplined(s, step));
  }

  /**
   * Whatever the step that the environment can take: unless the simulator stops, every thread can still go on, and the
   * invariant holds, exactly if the step is one the engine can bear.
   */
  lemma StepExact(s: State, step: Step)
    requires Inv(s) && Enabled(s, step)
    ensures Matches(Next(s, step), Disciplined(s, step))
  {
    if step.act.Data? {
      DataStepExact(s, step);
    } else if step.act.Connection? {
      ConnectionStepExact(s, step);
    } else if step.act.Fire? && CaughtBy(s, step.act.e, step.act.next).Some? {
      DispatchExact(s, step.act.e, step.act.next, step.ans);
    } else {
      StepKeeps(s, step);
      MatchesIf(Next(s, step), true);
    }
  }

  // ---- Runs ----------------------------------------------------------------------------------

  /** The invariant holds in every state of the run that has not stopped. */
  ghost predicate AlwaysInv(s: State, steps: seq<Step>)
    decreases steps
  {
    s.halted || (Inv(s) && (steps == [] || AlwaysInv(Next(s, steps[0]), steps[1..])))
  }

  /** So is the simulator healthy. */
  ghost predicate AlwaysHealthy(s: State, steps: seq<Step>)
    decreases steps
  {
    s.halted || (Healthy(s) && (steps == [] || AlwaysHealthy(Next(s, steps[0]), steps[1..])))
  }

  /** Over every possible run: all threads can always go on exactly if every step is one the engine can bear. */
  lemma {:induction false} RunExact(s: State, steps: seq<Step>)
    requires Inv(s) && Possible(s, steps)
    ensures AlwaysInv(s, steps) <==> Sound(s, steps)
    ensures AlwaysHealthy(s, steps) <==> Sound(s, steps)
    decreases steps
  {
    InvHealthy(s);
    if steps != [] {
      var t := Next(s, steps[0]);
      StepExact(s, steps[0]);
      if !t.halted && Inv(t) {
        RunExact(t, steps[1..]);
      }
    }
  }
}
