/** A select that has to wait leaves a closure of its own with every descriptor it watches. */
module SimSelect {
  import opened Base
  import opened NetlinkWire
  import opened Sim
  import opened SimInv
  import opened SimHandlers

  // ---- The slots -----------------------------------------------------------------------

  /** What happens to the socket of an open descriptor. */
  lemma WatchedSockOf(n: Net, f: Fd, op: OpId, wr: set<Fd>, ww: set<Fd>)
    requires FdOk(n) && f in n.fds.sockets
    ensures Known(n, f)
    ensures var k := n.socks[n.fds.sockets[f]];
            WatchedSock(n, n.fds.sockets[f], op, wr, ww) ==
            k.(send := if f in ww then SelectSend(op, f) else k.send,
               accept := if f in wr && f in n.fds.listening then SelectAccept(op, f) else k.accept,
               recv := if f in wr && f !in n.fds.listening then SelectRecv(op, f) else k.recv)
  {
    assert IsFdOf(n.fds.sockets, f, n.fds.sockets[f]);
  }

  lemma WatchedNlOf(n: Net, f: Fd, op: OpId, wr: set<Fd>)
    requires FdOk(n) && f in n.fds.netlinks
    ensures KnownNl(n, f)
    ensures var q := n.nls[n.fds.netlinks[f]];
            WatchedNl(n, n.fds.netlinks[f], op, wr) == q.(recv := if f in wr then SelectNl(op, f) else q.recv)
  {
    assert IsFdOf(n.fds.netlinks, f, n.fds.netlinks[f]);
  }

  lemma WatchedFdOk(n: Net, op: OpId, wr: set<Fd>, ww: set<Fd>)
    requires FdOk(n)
    ensures FdOk(WatchedNet(n, op, wr, ww))
  {
    var m := WatchedNet(n, op, wr, ww);
    forall f | f in m.fds.fakeAccepted ensures m.socks[m.fds.fakeAccepted[f]].accept == NoAccept {
      assert forall g :: !IsFdOf(n.fds.sockets, g, n.fds.fakeAccepted[f]);
    }
  }

  lemma Watching(n: Net, op: OpId, o: SelectOp)
    requires FdOk(n)
    requires forall f :: f in o.watchR ==>
               (f in n.fds.sockets || f in n.fds.netlinks) && !Readable(n, f) && !Refused(n, f)
    requires forall f :: f in o.watchW ==> f in n.fds.sockets && !Writable(n, f)
    ensures WatchedBy(WatchedNet(n, op, o.watchR, o.watchW), op, o)
  {
    var m := WatchedNet(n, op, o.watchR, o.watchW);
    forall f | f in o.watchR ensures WatchesR(m, op, f) {
      if f in n.fds.sockets {
        WatchedSockOf(n, f, op, o.watchR, o.watchW);
      } else {
        WatchedNlOf(n, f, op, o.watchR);
      }
    }
    forall f | f in o.watchW ensures WatchesW(m, op, f) {
      WatchedSockOf(n, f, op, o.watchR, o.watchW);
    }
  }

  // ---- Blocking --------------------------------------------------------------------------

  lemma BlockForm(s: State, p: Pid, rset: Option<set<Fd>>, wset: Option<set<Fd>>, timeout: Option<Timeval>)
    requires p in s.tracees && s.nextEvent !in s.events
    ensures var t, op, o := BlockInSelect(s, p, rset, wset, timeout), |s.ops|, NewSelect(s, p, rset, wset, timeout);
            t.net == WatchedNet(s.net, op, o.watchR, o.watchW) && t.ops == s.ops + [o] &&
            t.tracees == s.tracees[p := s.tracees[p].(cont := InSelect(op))] &&
            t.halted == s.halted && t.now == s.now && t.nextEvent >= s.nextEvent &&
            (o.timeout.Some? ==> o.timeout.value !in s.events && t.nextEvent == s.nextEvent + 1) &&
            t.events.Keys == s.events.Keys + (if o.timeout.Some? then {o.timeout.value} else {}) &&
            (forall e :: e in s.events ==> t.events[e] == s.events[e]) &&
            (o.timeout.Some? ==> t.events[o.timeout.value].what == SelectTimeout(op) &&
                                 t.events[o.timeout.value].at >= s.now)
  {
  }

  predicate AsksFor(stop: Stop, rset: Option<set<Fd>>, wset: Option<set<Fd>>, timeout: Option<Timeval>) {
    stop.AtEntry? && stop.call.Select? && stop.call.rset == rset && stop.call.wset == wset &&
    stop.call.timeout == timeout
  }

  lemma BlockedSelf(s: State, p: Pid, rset: Option<set<Fd>>, wset: Option<set<Fd>>, timeout: Option<Timeval>)
    requires Core(s) && p in s.tracees && AsksFor(s.tracees[p].stop, rset, wset, timeout)
    requires NothingReady(s.net, rset, wset) && !NothingWatched(s.net.fds, rset, wset)
    requires forall f :: f in WatchR(s.net.fds, rset) ==> !Refused(s.net, f)
    ensures var t := BlockInSelect(s, p, rset, wset, timeout);
            ContOk(t.events, t.ops, t.net, p, t.tracees[p])
  {
    BlockForm(s, p, rset, wset, timeout);
    assert forall f :: f in WatchR(s.net.fds, rset) && Readable(s.net, f) ==> f in ReadyR(s.net, rset);
    assert forall f :: f in WatchW(s.net.fds, wset) && Writable(s.net, f) ==> f in ReadyW(s.net, wset);
    Watching(s.net, |s.ops|, NewSelect(s, p, rset, wset, timeout));
  }

  /** The slots in which a select that has to wait hears of readiness. */
  ghost predicate SlotsIdle(s: State, wr: set<Fd>, ww: set<Fd>) {
    (forall f :: f in wr && Known(s.net, f) ==>
                   var k := s.net.socks[s.net.fds.sockets[f]];
                   if k.listens then AcceptIdle(s.tracees, s.ops, k.accept) else RecvIdle(s.ops, k.recv)) &&
    (forall f :: f in wr && KnownNl(s.net, f) ==> NlIdle(s.ops, s.net.nls[s.net.fds.netlinks[f]].recv)) &&
    (forall f :: f in ww && Known(s.net, f) ==> SendIdle(s.ops, s.net.socks[s.net.fds.sockets[f]].send))
  }

  lemma FilledWatchesR(s: State, op: OpId, wr: set<Fd>, ww: set<Fd>, op': OpId, f: Fd)
    requires FdOk(s.net) && SlotsIdle(s, wr, ww) && op' < |s.ops| && !s.ops[op'].handled && WatchesR(s.net, op', f)
    ensures WatchesR(WatchedNet(s.net, op, wr, ww), op', f)
  {
    if f in s.net.fds.sockets {
      WatchedSockOf(s.net, f, op, wr, ww);
    } else {
      WatchedNlOf(s.net, f, op, wr);
    }
  }

  lemma FilledWatchesW(s: State, op: OpId, wr: set<Fd>, ww: set<Fd>, op': OpId, f: Fd)
    requires FdOk(s.net) && SlotsIdle(s, wr, ww) && op' < |s.ops| && !s.ops[op'].handled && WatchesW(s.net, op', f)
    ensures WatchesW(WatchedNet(s.net, op, wr, ww), op', f)
  {
    WatchedSockOf(s.net, f, op, wr, ww);
  }

  /** Filling idle slots takes no other thread's closure away. */
  lemma FilledContOk(s: State, op: OpId, wr: set<Fd>, ww: set<Fd>, q: Pid)
    requires Core(s) && SlotsIdle(s, wr, ww) && q in s.tracees
    ensures ContOk(s.events, s.ops, WatchedNet(s.net, op, wr, ww), q, s.tracees[q])
  {
    assert ContOk(s.events, s.ops, s.net, q, s.tracees[q]);
    var c := s.tracees[q].cont;
    if c.InRecv? || c.InAccept? || c.InConnect? {
      WatchedSockOf(s.net, c.fd, op, wr, ww);
    }
    if c.InSelect? {
      var o, m := s.ops[c.op], WatchedNet(s.net, op, wr, ww);
      forall f | f in o.watchR ensures WatchesR(m, c.op, f) {
        FilledWatchesR(s, op, wr, ww, c.op, f);
      }
      forall f | f in o.watchW ensures WatchesW(m, c.op, f) {
        FilledWatchesW(s, op, wr, ww, c.op, f);
      }
    }
  }

  lemma BlockedOther(s: State, p: Pid, rset: Option<set<Fd>>, wset: Option<set<Fd>>, timeout: Option<Timeval>, q: Pid)
    requires Core(s) && p in s.tracees && q in s.tracees && q != p
    requires SlotsIdle(s, WatchR(s.net.fds, rset), WatchW(s.net.fds, wset))
    ensures var t := BlockInSelect(s, p, rset, wset, timeout);
            ContOk(t.events, t.ops, t.net, q, t.tracees[q])
  {
    BlockForm(s, p, rset, wset, timeout);
    FilledContOk(s, |s.ops|, WatchR(s.net.fds, rset), WatchW(s.net.fds, wset), q);
  }

  /** The closures in the slots are the new ones, or those that were there. */
  lemma BlockedSlots(s: State, ts: map<Pid, Tracee>, o: SelectOp, sid: SockId)
    requires FdOk(s.net) && sid < |s.net.socks| && !o.handled && forall f :: f in o.watchR ==> !Refused(s.net, f)
    requires SlotsOk(ts, s.ops, s.net.fds, sid, s.net.socks[sid])
    ensures var m := WatchedNet(s.net, |s.ops|, o.watchR, o.watchW);
            SlotsOk(ts, s.ops + [o], m.fds, sid, m.socks[sid])
  {
    if f :| IsFdOf(s.net.fds.sockets, f, sid) {
      WatchedSockOf(s.net, f, |s.ops|, o.watchR, o.watchW);
    }
  }

  lemma BlockedNl(s: State, o: SelectOp, i: NlId)
    requires FdOk(s.net) && i < |s.net.nls| && !o.handled
    requires NlOk(s.ops, s.net.fds.netlinks, i, s.net.nls[i])
    ensures var m := WatchedNet(s.net, |s.ops|, o.watchR, o.watchW);
            NlOk(s.ops + [o], m.fds.netlinks, i, m.nls[i])
  {
    if f :| IsFdOf(s.net.fds.netlinks, f, i) {
      WatchedNlOf(s.net, f, |s.ops|, o.watchR);
    }
  }

  lemma BlockedRefs(s: State, p: Pid, rset: Option<set<Fd>>, wset: Option<set<Fd>>, timeout: Option<Timeval>)
    requires Core(s) && p in s.tracees && s.tracees[p].cont == InFlight
    requires forall f :: f in WatchR(s.net.fds, rset) ==> !Refused(s.net, f)
    ensures var t := BlockInSelect(s, p, rset, wset, timeout);
            EventsOk(t) && OpsOk(t) && SocksOk(t.tracees, t.ops, t.net) && NlsOk(t.ops, t.net)
  {
    var t, o := BlockInSelect(s, p, rset, wset, timeout), NewSelect(s, p, rset, wset, timeout);
    BlockForm(s, p, rset, wset, timeout);
    Elsewhere(s, p, t.tracees[p]);
    forall e | e in t.events ensures EventOk(t.tracees, t.ops, e, t.events[e].what) {
      if e in s.events {
        assert EventOk(t.tracees, s.ops, e, s.events[e].what);
      }
    }
    forall op: nat | op < |t.ops| ensures OpOk(t.tracees, op, t.ops[op]) {
      if op < |s.ops| {
        assert OpOk(t.tracees, op, s.ops[op]);
      }
    }
    forall sid: nat | sid < |t.net.socks| ensures SlotsOk(t.tracees, t.ops, t.net.fds, sid, t.net.socks[sid]) {
      assert SlotsOk(t.tracees, s.ops, s.net.fds, sid, s.net.socks[sid]);
      BlockedSlots(s, t.tracees, o, sid);
    }
    forall i: nat | i < |t.net.nls| ensures NlOk(t.ops, t.net.fds.netlinks, i, t.net.nls[i]) {
      assert NlOk(s.ops, s.net.fds.netlinks, i, s.net.nls[i]);
      BlockedNl(s, o, i);
    }
  }

  lemma BlockKeeps(s: State, p: Pid, rset: Option<set<Fd>>, wset: Option<set<Fd>>, timeout: Option<Timeval>)
    requires Active(s, {p}) && p in s.tracees && AsksFor(s.tracees[p].stop, rset, wset, timeout)
    requires SlotsIdle(s, WatchR(s.net.fds, rset), WatchW(s.net.fds, wset))
    requires NothingReady(s.net, rset, wset) && !NothingWatched(s.net.fds, rset, wset)
    requires forall f :: f in WatchR(s.net.fds, rset) ==> !Refused(s.net, f)
    ensures Inv(BlockInSelect(s, p, rset, wset, timeout))
  {
    var t := BlockInSelect(s, p, rset, wset, timeout);
    BlockForm(s, p, rset, wset, timeout);
    WatchedFdOk(s.net, |s.ops|, WatchR(s.net.fds, rset), WatchW(s.net.fds, wset));
    BlockedRefs(s, p, rset, wset, timeout);
    forall q | q in t.tracees ensures ContOk(t.events, t.ops, t.net, q, t.tracees[q]) {
      if q == p {
        BlockedSelf(s, p, rset, wset, timeout);
      } else {
        BlockedOther(s, p, rset, wset, timeout, q);
      }
    }
  }

  /** A select that has to wait. */
  ghost predicate SelectMustWait(n: Net, c: Call)
    requires c.Select?
  {
    !SelectFails(n, c.rset, c.wset, c.eset, c.timeout) && MayBlock(c.timeout) && NothingReady(n, c.rset, c.wset) &&
    !NothingWatched(n.fds, c.rset, c.wset)
  }

  /** It waits for connections where ns-3 does not listen: data may come there, and it does not hear of them. */
  ghost predicate SelectUnheard(n: Net, c: Call) {
    c.Select? && SelectMustWait(n, c) && exists f :: f in WatchR(n.fds, c.rset) && Refused(n, f)
  }

  /** A select that has to wait finds every slot idle in which it is to hear of readiness, and will hear of it there. */
  ghost predicate SelectFits(s: State, c: Call)
    requires c.Select?
  {
    SelectMustWait(s.net, c) ==>
      SlotsIdle(s, WatchR(s.net.fds, c.rset), WatchW(s.net.fds, c.wset)) && !SelectUnheard(s.net, c)
  }

  lemma SelectOk(s: State, p: Pid, c: Call, ans: Answer)
    requires Serving(s, p, c) && c.Select? && SelectFits(s, c)
    ensures ResOk(HandleSelect(s, p, c.rset, c.wset, c.eset, c.timeout, ans), p)
  {
    var r := HandleSelect(s, p, c.rset, c.wset, c.eset, c.timeout, ans);
    if r.code == Success {
      AnsweredOk(s, p, SelectAnswer(s.net, c.rset, c.wset), Success, ans);
    } else if r.code == Delayed {
      BlockKeeps(s, p, c.rset, c.wset, c.timeout);
    }
  }
}
