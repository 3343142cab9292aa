/** The remaining handlers but select: connection attempts, sleep, clocks, threads, and netlink. */
module SimServing {
  import opened NetlinkWire
  import opened Sim
  import opened SimInv
  import opened SimHandlers
  import opened SimCallbacks
  import NL = Netlink
  import RH = RoutingHistory

  // ---- connect and nanosleep -------------------------------------------------------------

  /** An attempt that ns-3 refuses without reporting it: no callback will run. */
  predicate ConnectRefused(n: Net, c: Call, ans: Answer) {
    c.Connect? && c.inet && Known(n, c.fd) && !Begins(ans)
  }

  /** No other attempt is under way on the socket, this one is, and who waits for connections can still get them. */
  ghost predicate ConnectFits(s: State, c: Call, ans: Answer)
    requires c.Connect?
  {
    !ConnectRefused(s.net, c, ans) &&
    (c.inet && Known(s.net, c.fd) ==>
       var k := s.net.socks[s.net.fds.sockets[c.fd]];
       !k.connecting && (k.listens && !ans.stillListens ==> AcceptIdle(s.tracees, s.ops, k.accept)))
  }

  lemma ConnectOk(s: State, p: Pid, c: Call, ans: Answer)
    requires Serving(s, p, c) && c.Connect? && ConnectFits(s, c, ans)
    ensures ResOk(HandleConnect(s, p, c.fd, c.inet, ans), p)
  {
    if c.fd !in s.net.fds.sockets {
      AnsweredOk(s, p, Value(-1), Failure, ans);
    } else if c.inet && Known(s.net, c.fd) {
      var sid := s.net.fds.sockets[c.fd];
      var k := Attempted(s.net.socks[sid], p, c.fd, ans);
      ListenerIdle(s, c.fd);
      BlockOk(s, p, c.fd, k, InConnect(c.fd), ans);
      if ans.connected.Some? {
        ConnectEndKeeps(SetCont(SetSock(s, sid, k), p, InConnect(c.fd)), sid, ans.connected.value, ans);
      }
    }
  }

  lemma NanoSleepOk(s: State, p: Pid, c: Call)
    requires Serving(s, p, c) && c.NanoSleep?
    ensures ResOk(HandleNanoSleep(s, p, c.sec, c.nsec), p)
  {
    HandToQueue(s, p, Later(s.now, c.sec, c.nsec), SleepDone(p), InSleep(s.nextEvent), {p});
    assert {p} - {p} == {};
  }

  // ---- Clocks ------------------------------------------------------------------------------

  lemma StoreOnlyOk(s: State, p: Pid, c: Call, result: Result)
    requires Active(s, {p}) && p in s.tracees && TwoDispatches(c)
    requires s.tracees[p].stop == AtEntry(c) || s.tracees[p].stop.AtExit?
    ensures ResOk(StoreOnly(s, p, result), p)
  {
    StopKeeps(s, p, AtExit(result), {p});
  }

  // ---- Threads -----------------------------------------------------------------------------

  /** A thread nothing refers to appears, being served. */
  lemma ThreadAppears(s: State, p: Pid, who: set<Pid>)
    requires Active(s, who) && p !in s.tracees
    ensures Active(NewThread(s, p), who + {p})
  {
    var n := NewThread(s, p);
    StillReferred(s, n.tracees);
    forall q | q in n.tracees ensures ContOk(n.events, n.ops, n.net, q, n.tracees[q]) {
      if q != p {
        assert ContOk(s.events, s.ops, s.net, q, s.tracees[q]);
      }
    }
  }

  /** What refers to threads is content as long as every recorded continuation stays. */
  lemma StillReferred(s: State, ts: map<Pid, Tracee>)
    requires Core(s) && forall q, c :: c != InFlight && HasCont(s.tracees, q, c) ==> HasCont(ts, q, c)
    ensures var n := s.(tracees := ts);
            EventsOk(n) && OpsOk(n) && SocksOk(ts, s.ops, s.net)
  {
    var n := s.(tracees := ts);
    forall e | e in n.events ensures EventOk(ts, n.ops, e, n.events[e].what) {
      assert EventOk(s.tracees, s.ops, e, s.events[e].what);
    }
    forall op: nat | op < |n.ops| ensures OpOk(ts, op, n.ops[op]) {
      assert OpOk(s.tracees, op, s.ops[op]);
    }
    forall sid: nat | sid < |n.net.socks| ensures SlotsOk(ts, n.ops, n.net.fds, sid, n.net.socks[sid]) {
      assert SlotsOk(s.tracees, s.ops, s.net.fds, sid, s.net.socks[sid]);
    }
  }

  /** A served thread goes away; nothing was to resume it. */
  lemma ThreadLeaves(s: State, p: Pid)
    requires Active(s, {p})
    ensures Inv(s.(tracees := s.tracees - {p}))
  {
    var n := s.(tracees := s.tracees - {p});
    StillReferred(s, n.tracees);
    forall q | q in n.tracees ensures ContOk(n.events, n.ops, n.net, q, n.tracees[q]) {
      assert ContOk(s.events, s.ops, s.net, q, s.tracees[q]);
    }
  }

  lemma CloneOk(s: State, p: Pid, c: Call, ans: Answer)
    requires Serving(s, p, c) && c.Clone? && ans.tid !in s.tracees
    ensures ResOk(HandleClone(s, p, ans), p)
  {
    var s1 := Fake(s, p, Value(ans.tid), ans.stray);
    FakeKeeps(s, p, Value(ans.tid), ans.stray, {p});
    ThreadAppears(s1, ans.tid, {p});
    HandToQueue(NewThread(s1, ans.tid), ans.tid, Later(s.now, 0, 100), Before(ans.tid), Resumes(s1.nextEvent),
                {p} + {ans.tid});
    assert {p} + {ans.tid} - {ans.tid} == {p};
  }

  // ---- Netlink -------------------------------------------------------------------------------

  /** New contents of the reply queue of a netlink descriptor nobody waits on. */
  lemma NlChange(s: State, fd: Fd, q: Nl, table: seq<RtEntry>, who: set<Pid>)
    requires Active(s, who) && Unwaited(s, {fd}) && KnownNl(s.net, fd)
    requires q.recv == s.net.nls[s.net.fds.netlinks[fd]].recv || q.recv == NoNl
    ensures Active(SetNl(s.(table := table), s.net.fds.netlinks[fd], q), who)
  {
    var n := s.net.fds.netlinks[fd];
    var t := SetNl(s.(table := table), n, q);
    forall i: nat | i < |t.net.nls| ensures NlOk(t.ops, t.net.fds.netlinks, i, t.net.nls[i]) {
      assert NlOk(s.ops, s.net.fds.netlinks, i, s.net.nls[i]);
    }
    assert FdOk(t.net);
    OneFdChange(s, t, fd, who);
  }

  import opened Routing

  /** Whoever waits for netlink replies hears of them: replies to route messages are queued silently. */
  predicate Heard(s: State, fd: Fd, walked: Outcome<seq<Effect>>) {
    walked.Crashed? || Notifies(walked.value) || walked.value == [] ||
    (KnownNl(s.net, fd) ==> NlIdle(s.ops, s.net.nls[s.net.fds.netlinks[fd]].recv))
  }

  function Sent(s: State, n: NlId, es: seq<Effect>, r: NlCb): State
    requires n < |s.net.nls|
  {
    SetNl(s.(table := RH.ApplyAll(s.table, OpsOf(es))), n,
          Nl(s.net.nls[n].owner, s.net.nls[n].replies + RepliesOf(es), r))
  }

  /** Nothing happens in an empty request. */
  lemma SentNothing(s: State, n: NlId)
    requires n < |s.net.nls|
    ensures Sent(s, n, [], s.net.nls[n].recv) == s
  {
    var q := s.net.nls[n];
    assert RepliesOf([]) == [] && q.replies + [] == q.replies;
    assert RH.ApplyAll(s.table, OpsOf([])) == s.table;
    assert s.net.nls[n := q] == s.net.nls;
  }

  /** The select that waits for replies on descriptor `fd`. */
  lemma NlWatcher(s: State, fd: Fd)
    requires Core(s) && KnownNl(s.net, fd)
    ensures var r := s.net.nls[s.net.fds.netlinks[fd]].recv;
            r.SelectNl? ==> r.op < |s.ops|
    ensures var r := s.net.nls[s.net.fds.netlinks[fd]].recv;
            r.SelectNl? && !s.ops[r.op].handled ==>
              r.fd == fd && fd in s.ops[r.op].watchR && s.ops[r.op].pid in s.tracees &&
              s.tracees[s.ops[r.op].pid].cont == InSelect(r.op) && s.tracees[s.ops[r.op].pid].stop.AtEntry?
  {
    var n := s.net.fds.netlinks[fd];
    var r := s.net.nls[n].recv;
    assert NlOk(s.ops, s.net.fds.netlinks, n, s.net.nls[n]);
    if r.SelectNl? && !s.ops[r.op].handled {
      Unanswered(s, r.op);
    }
  }

  /** Once its select is answered, nobody waits on its netlink descriptor. */
  lemma AnsweredUnwaited(s: State, op: OpId, fd: Fd, result: Result, stray: Call)
    requires TraceesOk(s) && FdOk(s.net) && KnownNl(s.net, fd) && op < |s.ops| && s.ops[op].pid in s.tracees
    requires s.net.nls[s.net.fds.netlinks[fd]].recv == SelectNl(op, fd)
    ensures Unwaited(FinishSelect(s, op, s.ops[op].pid, result, stray), {fd})
  {
    var p, f := s.ops[op].pid, FinishSelect(s, op, s.ops[op].pid, result, stray);
    forall q | q in f.tracees ensures WaitFds(f.ops, f.tracees[q].cont) !! {fd} {
      if q != p {
        var c := s.tracees[q].cont;
        assert ContOk(s.events, s.ops, s.net, q, s.tracees[q]);
        if c.InSelect? {
          assert fd in s.ops[c.op].watchR ==> WatchesR(s.net, c.op, fd);
          assert fd in s.ops[c.op].watchW ==> WatchesW(s.net, c.op, fd);
        }
      }
    }
  }

  lemma NetlinkSendOk(s: State, p: Pid, fd: Fd, walked: Outcome<seq<Effect>>, returned: int, ans: Answer)
    requires Active(s, {p}) && p in s.tracees && s.tracees[p].stop.AtEntry? && KnownNl(s.net, fd) &&
             Heard(s, fd, walked)
    requires s.net.nls[s.net.fds.netlinks[fd]].owner == p
    ensures ResOk(NetlinkSend(s, fd, walked, returned, ans), p)
  {
    if walked.Fine? {
      var es, n := walked.value, s.net.fds.netlinks[fd];
      var r := s.net.nls[n].recv;
      NlWatcher(s, fd);
      if Notifies(es) && r.SelectNl? && !s.ops[r.op].handled {
        NotifyingSend(s, p, fd, es, returned, ans);
      } else {
        QuietSend(s, p, fd, es);
        AnsweredOk(Sent(s, n, es, r), p, Value(returned), Success, ans);
      }
    }
  }

  lemma NotifyingSend(s: State, p: Pid, fd: Fd, es: seq<Effect>, returned: int, ans: Answer)
    requires Active(s, {p}) && p in s.tracees && s.tracees[p].stop.AtEntry? && KnownNl(s.net, fd)
    requires s.net.nls[s.net.fds.netlinks[fd]].owner == p && Notifies(es)
    requires var r := s.net.nls[s.net.fds.netlinks[fd]].recv; r.SelectNl? && r.op < |s.ops| && !s.ops[r.op].handled
    ensures ResOk(NetlinkSend(s, fd, Fine(es), returned, ans), p)
  {
    var n, r := s.net.fds.netlinks[fd], s.net.nls[s.net.fds.netlinks[fd]].recv;
    NlWatcher(s, fd);
    NetlinkWakes(s, p, fd, es, ans);
    var f := FinishSelect(s, r.op, s.ops[r.op].pid, OneRead(s.ops[r.op], fd), ans.stray);
    AnsweredOk(Sent(f, n, es, NoNl), p, Value(returned), Success, ans);
    NotifyForm(s, fd, es, ans);
  }

  lemma QuietSend(s: State, p: Pid, fd: Fd, es: seq<Effect>)
    requires Active(s, {p}) && KnownNl(s.net, fd) && Heard(s, fd, Fine(es))
    requires var r := s.net.nls[s.net.fds.netlinks[fd]].recv;
             r.SelectNl? ==> !Notifies(es) || (r.op < |s.ops| && s.ops[r.op].handled)
    ensures Active(Sent(s, s.net.fds.netlinks[fd], es, s.net.nls[s.net.fds.netlinks[fd]].recv), {p})
  {
    var n := s.net.fds.netlinks[fd];
    if es == [] {
      SentNothing(s, n);
    } else {
      NlIdleUnwaited(s, fd);
      NlChange(s, fd, Nl(s.net.nls[n].owner, s.net.nls[n].replies + RepliesOf(es), s.net.nls[n].recv),
               RH.ApplyAll(s.table, OpsOf(es)), {p});
    }
  }

  /** Whoever waits on a netlink descriptor has a live closure in its slot. */
  lemma NlIdleUnwaited(s: State, fd: Fd)
    requires Core(s) && KnownNl(s.net, fd) && NlIdle(s.ops, s.net.nls[s.net.fds.netlinks[fd]].recv)
    ensures Unwaited(s, {fd})
  {
    IdleUnwaited(s, fd);
  }

  /** Nobody waits for replies that are there. */
  lemma RepliesUnwaited(s: State, fd: Fd)
    requires Core(s) && KnownNl(s.net, fd) && s.net.nls[s.net.fds.netlinks[fd]].replies != []
    ensures Unwaited(s, {fd})
  {
    var r := s.net.nls[s.net.fds.netlinks[fd]].recv;
    NlWatcher(s, fd);
    if !NlIdle(s.ops, r) {
      WatchedNotReady(s, r.op, fd);
    }
    NlIdleUnwaited(s, fd);
  }

  /** A dump answers the select that watches its socket. */
  lemma NetlinkWakes(s: State, p: Pid, fd: Fd, es: seq<Effect>, ans: Answer)
    requires Active(s, {p}) && p in s.tracees && KnownNl(s.net, fd)
    requires var r := s.net.nls[s.net.fds.netlinks[fd]].recv;
             r.SelectNl? && r.op < |s.ops| && !s.ops[r.op].handled
    ensures var r := s.net.nls[s.net.fds.netlinks[fd]].recv;
            var f := FinishSelect(s, r.op, s.ops[r.op].pid, OneRead(s.ops[r.op], fd), ans.stray);
            f.net == s.net && Active(Sent(f, s.net.fds.netlinks[fd], es, NoNl), {p}) &&
            p in f.tracees && f.tracees[p] == s.tracees[p]
  {
    var n := s.net.fds.netlinks[fd];
    var op := s.net.nls[n].recv.op;
    NlWatcher(s, fd);
    var result := OneRead(s.ops[op], fd);
    var f := FinishSelect(s, op, s.ops[op].pid, result, ans.stray);
    FinishKeeps(s, op, result, ans.stray, {p});
    FinishNet(s, s.net, op, s.ops[op].pid, result, ans.stray);
    AnsweredUnwaited(s, op, fd, result, ans.stray);
    NlChange(f, fd, Nl(s.net.nls[n].owner, s.net.nls[n].replies + RepliesOf(es), NoNl), RH.ApplyAll(f.table, OpsOf(es)),
             {p});
  }

  lemma NotifyForm(s: State, fd: Fd, es: seq<Effect>, ans: Answer)
    requires KnownNl(s.net, fd)
    requires var r := s.net.nls[s.net.fds.netlinks[fd]].recv;
             r.SelectNl? && r.op < |s.ops| && r.fd == fd && !s.ops[r.op].handled
    ensures var n := s.net.fds.netlinks[fd];
            var op := s.net.nls[n].recv.op;
            var s1 := Sent(s, n, es, s.net.nls[n].recv);
            var g := FinishSelect(s1, op, s.ops[op].pid, OneRead(s.ops[op], fd), ans.stray);
            var f := FinishSelect(s, op, s.ops[op].pid, OneRead(s.ops[op], fd), ans.stray);
            g.net.nls == s1.net.nls && f.net == s.net &&
            SetNl(g, n, g.net.nls[n].(recv := NoNl)) == Sent(f, n, es, NoNl)
  {
    var n := s.net.fds.netlinks[fd];
    var op := s.net.nls[n].recv.op;
    var s1 := Sent(s, n, es, s.net.nls[n].recv);
    FinishTable(s, s1.net, s1.table, op, s.ops[op].pid, OneRead(s.ops[op], fd), ans.stray);
  }

  /** Finishing a select reads and writes neither network nor routes. */
  lemma FinishTable(s: State, m: Net, table: seq<RtEntry>, op: OpId, faked: Pid, result: Result, stray: Call)
    requires op < |s.ops|
    ensures FinishSelect(s.(net := m, table := table), op, faked, result, stray) ==
            FinishSelect(s, op, faked, result, stray).(net := m, table := table)
    ensures FinishSelect(s, op, faked, result, stray).net == s.net
    ensures FinishSelect(s, op, faked, result, stray).table == s.table
  {
    FinishNet(s.(table := table), m, op, faked, result, stray);
    FinishNet(s, s.net, op, faked, result, stray);
    var o := s.ops[op];
    var f := s.(ops := s.ops[op := o.(handled := true)], events := Cancel(s.events, o.timeout));
    assert Fake(f.(table := table), faked, result, stray) == Fake(f, faked, result, stray).(table := table);
    ResumeTable(Fake(f, faked, result, stray), table, o.pid);
  }

  lemma ResumeTable(s: State, table: seq<RtEntry>, p: Pid)
    ensures Resume(s.(table := table), p) == Resume(s, p).(table := table)
    ensures Resume(s, p).table == s.table
  {
  }

  /** Calls on a netlink socket are answered to its owner, who must be the caller. */
  predicate OwnCall(n: Net, p: Pid, c: Call) {
    (c.SendTo? || c.SendMsg? || c.RecvMsg?) && KnownNl(n, c.fd) ==> n.nls[n.fds.netlinks[c.fd]].owner == p
  }

  /** A request on a netlink descriptor is heard; a datagram changes nothing here. */
  predicate SendHeard(s: State, c: Call) {
    match c
    case SendTo(fd, buf, flags, _) => KnownNl(s.net, fd) ==> Heard(s, fd, WalkMsgs(buf, s.app.devices))
    case SendMsg(fd, iov) => KnownNl(s.net, fd) ==> Heard(s, fd, WalkBuffers(iov, s.app.devices))
    case _ => true
  }

  lemma SendToOk(s: State, p: Pid, c: Call, ans: Answer)
    requires Serving(s, p, c) && c.SendTo? && SendHeard(s, c) && OwnCall(s.net, p, c)
    ensures ResOk(HandleSendTo(s, p, c.fd, c.buf, c.flags, c.dest, ans), p)
  {
    if Known(s.net, c.fd) {
      AnsweredOk(s, p, Value(ans.ret), Success, ans);
    } else if KnownNl(s.net, c.fd) {
      NetlinkSendOk(s, p, c.fd, WalkMsgs(c.buf, s.app.devices), LeftoverValue(c.buf), ans);
    }
  }

  lemma SendMsgOk(s: State, p: Pid, c: Call, ans: Answer)
    requires Serving(s, p, c) && c.SendMsg? && SendHeard(s, c) && OwnCall(s.net, p, c)
    ensures ResOk(HandleSendMsg(s, c.fd, c.iov, ans), p)
  {
    if KnownNl(s.net, c.fd) {
      NetlinkSendOk(s, p, c.fd, WalkBuffers(c.iov, s.app.devices), NL.TotalLen(c.iov), ans);
    }
  }


  lemma RecvMsgOk(s: State, p: Pid, c: Call, ans: Answer)
    requires Serving(s, p, c) && c.RecvMsg? && OwnCall(s.net, p, c)
    ensures ResOk(HandleRecvMsg(s, c.fd, c.iovLen, ans), p)
  {
    if KnownNl(s.net, c.fd) {
      var n := s.net.fds.netlinks[c.fd];
      var q := s.net.nls[n];
      if q.replies == [] {
        AnsweredOk(s, p, Value(-1), Failure, ans);
      } else if NL.ReplyLen(q.replies[0]) <= c.iovLen {
        RepliesUnwaited(s, c.fd);
        NlChange(s, c.fd, q.(replies := q.replies[1..]), s.table, {p});
        AnsweredOk(SetNl(s, n, q.(replies := q.replies[1..])), p, Message(NL.ReplyLen(q.replies[0]), q.replies[0]),
                   Success, ans);
      }
    }
  }
}
