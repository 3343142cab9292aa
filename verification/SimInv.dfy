/**
 * What holds between simulator events: the descriptor tables partition the descriptor range, and
 * every live thread has exactly the continuation recorded for it, in the event queue or in a
 * callback slot, and no other.
 */
module SimInv {
  import opened Base
  import opened NetlinkWire
  import opened Sim

  // ---- Descriptors -------------------------------------------------------------------

  /** Every descriptor of the range is in exactly one of the four tables. */
  ghost predicate Partition(t: FdTable) {
    t.available !! t.sockets.Keys && t.available !! t.netlinks.Keys && t.available !! t.random &&
    t.sockets.Keys !! t.netlinks.Keys && t.sockets.Keys !! t.random && t.netlinks.Keys !! t.random &&
    t.available + t.sockets.Keys + t.netlinks.Keys + t.random == AllFds()
  }

  ghost predicate Nested(t: FdTable) {
    t.listening <= t.tcp && t.tcp <= t.sockets.Keys &&
    t.connected <= t.sockets.Keys && t.nonblocking <= t.sockets.Keys
  }

  ghost predicate Injective(m: map<Fd, nat>, bound: nat) {
    (forall f :: f in m ==> m[f] < bound) &&
    (forall f, g :: f in m && g in m && m[f] == m[g] ==> f == g)
  }

  /** Connections not yet accepted are sockets no descriptor stands for, and nobody has touched them. */
  ghost predicate Pending(n: Net) {
    Injective(n.fds.fakeAccepted, |n.socks|) &&
    (forall f, g :: f in n.fds.fakeAccepted && g in n.fds.sockets ==> n.fds.fakeAccepted[f] != n.fds.sockets[g]) &&
    (forall f :: f in n.fds.fakeAccepted ==>
                   n.socks[n.fds.fakeAccepted[f]].accept == NoAccept && !n.socks[n.fds.fakeAccepted[f]].listens)
  }

  /** An open socket that ns-3 listens on counts as listening; the other way round this need not be so. */
  ghost predicate Registered(n: Net) {
    forall f :: Known(n, f) && n.socks[n.fds.sockets[f]].listens ==> f in n.fds.listening
  }

  ghost predicate FdOk(n: Net) {
    Partition(n.fds) && Nested(n.fds) && Injective(n.fds.sockets, |n.socks|) &&
    Injective(n.fds.netlinks, |n.nls|) && Pending(n) && Registered(n)
  }

  // ---- Continuations -----------------------------------------------------------------

  /** Calls that leave their thread at the entry stop when they return to the event loop. */
  predicate LeavesAtEntry(c: Call) {
    c.Exit? || TwoDispatches(c)
  }

  /** The two clock calls are dispatched twice, at the entry and at the exit of the same call. */
  predicate TwoDispatches(c: Call) {
    (c.ClockGetTime? && !c.cpuClock) || (c.ClockGetRes? && !c.cpuClock)
  }

  predicate Parked(stop: Stop) {
    stop.AtExit? || LeavesAtEntry(stop.call)
  }

  /**
   * A blocked select's closure sits in the slot that what makes the watched descriptor ready runs, connections if its
   * socket listens and data otherwise; and the descriptor is not ready.
   */
  ghost predicate WatchesR(n: Net, op: OpId, f: Fd) {
    if f in n.fds.sockets then
      Known(n, f) && !Readable(n, f) &&
      var k := n.socks[n.fds.sockets[f]];
      if k.listens then k.accept == SelectAccept(op, f) else k.recv == SelectRecv(op, f)
    else KnownNl(n, f) && !Readable(n, f) && n.nls[n.fds.netlinks[f]].recv == SelectNl(op, f)
  }

  ghost predicate WatchesW(n: Net, op: OpId, f: Fd) {
    Known(n, f) && !Writable(n, f) && n.socks[n.fds.sockets[f]].send == SelectSend(op, f)
  }

  ghost predicate WatchedBy(n: Net, op: OpId, o: SelectOp) {
    (forall f :: f in o.watchR ==> WatchesR(n, op, f)) &&
    (forall f :: f in o.watchW ==> WatchesW(n, op, f))
  }

  /** Only descriptors the call names are watched, and at least one; there is a timeout if the call gives one. */
  predicate Asked(c: Call, o: SelectOp) {
    c.Select? && o.watchR <= Given(c.rset) && o.watchW <= Given(c.wset) && o.watchR + o.watchW != {} &&
    (o.readsGiven <==> c.rset.Some?) && (o.writesGiven <==> c.wset.Some?) && (o.timeout.Some? <==> c.timeout.Some?)
  }

  /** The recorded continuation of thread `p` is really there. */
  ghost predicate ContOk(events: map<EvId, Event>, ops: seq<SelectOp>, n: Net, p: Pid, t: Tracee) {
    match t.cont
    case InFlight => true
    case Resumes(ev) => ev in events && events[ev].what == Before(p) && Parked(t.stop)
    case InSleep(ev) => ev in events && events[ev].what == SleepDone(p) && t.stop.AtEntry? && t.stop.call.NanoSleep?
    case InSelect(op) =>
      t.stop.AtEntry? && op < |ops| && Asked(t.stop.call, ops[op]) &&
      ops[op].pid == p && !ops[op].handled && WatchedBy(n, op, ops[op]) &&
      (ops[op].timeout.Some? ==>
         ops[op].timeout.value in events && events[ops[op].timeout.value].what == SelectTimeout(op))
    case InRecv(f) =>
      t.stop.AtEntry? && (t.stop.call.Read? || t.stop.call.RecvFrom?) &&
      Known(n, f) && var k := n.socks[n.fds.sockets[f]]; !k.listens && k.recv == ReadWait(p, f) && k.rx == 0
    case InWrite(_) => false
    case InAccept(f) =>
      t.stop == AtEntry(Accept(f)) && Known(n, f) &&
      var k := n.socks[n.fds.sockets[f]]; k.listens && k.accept == AcceptWait(p, f)
    case InConnect(f) =>
      t.stop.AtEntry? && t.stop.call.Connect? && Known(n, f) && n.socks[n.fds.sockets[f]].connecting &&
      n.socks[n.fds.sockets[f]].connect == ConnectWait(p, f)
  }

  ghost predicate HasCont(ts: map<Pid, Tracee>, p: Pid, c: Cont) {
    p in ts && ts[p].cont == c
  }

  /** No scheduled event resumes anything but the thread that recorded it. */
  ghost predicate EventOk(ts: map<Pid, Tracee>, ops: seq<SelectOp>, e: EvId, what: What) {
    match what
    case Before(p) => HasCont(ts, p, Resumes(e))
    case SleepDone(p) => HasCont(ts, p, InSleep(e))
    case SelectTimeout(op) => op < |ops| && !ops[op].handled && ops[op].timeout == Some(e)
    case SocketCleanup(_) => true
  }

  /** Events lie ahead and their numbers have been handed out. */
  ghost predicate QueueOk(events: map<EvId, Event>, nextEvent: EvId, now: nat) {
    forall e :: e in events ==> e < nextEvent && events[e].at >= now
  }

  /** An unhandled select belongs to a thread that is blocked in it. */
  ghost predicate OpOk(ts: map<Pid, Tracee>, op: OpId, o: SelectOp) {
    !o.handled ==> HasCont(ts, o.pid, InSelect(op))
  }

  /** A select closure belongs to a select made before; until that is answered, to a descriptor it watches. */
  ghost predicate ClosureOk(ops: seq<SelectOp>, m: map<Fd, nat>, op: OpId, f: Fd, x: nat, write: bool) {
    op < |ops| &&
    (!ops[op].handled ==> IsFdOf(m, f, x) && f in if write then ops[op].watchW else ops[op].watchR)
  }

  predicate Handled(ops: seq<SelectOp>, op: OpId) {
    op < |ops| && ops[op].handled
  }

  /**
   * Closures in the slots of a socket name existing selects, or the thread that waits on this very socket. An
   * unanswered select waits for data on sockets that do not listen and for connections on those that do.
   */
  ghost predicate SlotsOk(ts: map<Pid, Tracee>, ops: seq<SelectOp>, t: FdTable, sid: SockId, k: Sock) {
    (k.send.SelectSend? ==> ClosureOk(ops, t.sockets, k.send.op, k.send.fd, sid, true)) &&
    (k.recv.SelectRecv? ==> ClosureOk(ops, t.sockets, k.recv.op, k.recv.fd, sid, false) &&
                            (Handled(ops, k.recv.op) || !k.listens)) &&
    (k.recv.ReadWait? ==> HasCont(ts, k.recv.pid, InRecv(k.recv.fd)) && IsFdOf(t.sockets, k.recv.fd, sid)) &&
    (k.accept.SelectAccept? ==> ClosureOk(ops, t.sockets, k.accept.op, k.accept.fd, sid, false) &&
                                (Handled(ops, k.accept.op) || k.listens)) &&
    (k.connecting ==> k.connect.ConnectWait? && HasCont(ts, k.connect.pid, InConnect(k.connect.fd)) &&
                      IsFdOf(t.sockets, k.connect.fd, sid)) &&
    AcceptNames(t.sockets, k.accept, sid)
  }

  /** The accept closure of an open socket names the socket's own descriptor. */
  ghost predicate AcceptNames(sockets: map<Fd, SockId>, a: AcceptCb, sid: SockId) {
    !a.NoAccept? ==> forall f :: IsFdOf(sockets, f, sid) ==> a.fd == f
  }

  ghost predicate NlOk(ops: seq<SelectOp>, netlinks: map<Fd, NlId>, i: NlId, q: Nl) {
    q.recv.SelectNl? ==> ClosureOk(ops, netlinks, q.recv.op, q.recv.fd, i, false)
  }

  // ---- Which slots are taken ---------------------------------------------------------------

  /** No thread is to be resumed by this receive callback any more. */
  predicate RecvIdle(ops: seq<SelectOp>, r: RecvCb) {
    r.NoRecv? || (r.SelectRecv? && Handled(ops, r.op))
  }

  predicate SendIdle(ops: seq<SelectOp>, c: SendCb) {
    !c.SelectSend? || Handled(ops, c.op)
  }

  /** A blocking accept's closure stays in its slot after it has served its thread. */
  ghost predicate AcceptIdle(ts: map<Pid, Tracee>, ops: seq<SelectOp>, a: AcceptCb) {
    match a
    case SelectAccept(op, _) => Handled(ops, op)
    case AcceptWait(p, f) => !HasCont(ts, p, InAccept(f))
    case _ => true
  }

  predicate NlIdle(ops: seq<SelectOp>, r: NlCb) {
    !r.SelectNl? || Handled(ops, r.op)
  }

  /** The descriptors a thread waits on. */
  ghost function WaitFds(ops: seq<SelectOp>, c: Cont): set<Fd> {
    match c
    case InSelect(op) => if op < |ops| then ops[op].watchR + ops[op].watchW else {}
    case InRecv(f) => {f}
    case InAccept(f) => {f}
    case InConnect(f) => {f}
    case _ => {}
  }

  // ---- The whole invariant ------------------------------------------------------------

  ghost predicate TraceesOk(s: State) {
    forall p :: p in s.tracees ==> ContOk(s.events, s.ops, s.net, p, s.tracees[p])
  }

  ghost predicate EventsOk(s: State) {
    forall e :: e in s.events ==> EventOk(s.tracees, s.ops, e, s.events[e].what)
  }

  ghost predicate OpsOk(s: State) {
    forall op: nat :: op < |s.ops| ==> OpOk(s.tracees, op, s.ops[op])
  }

  ghost predicate SocksOk(ts: map<Pid, Tracee>, ops: seq<SelectOp>, n: Net) {
    forall sid: nat :: sid < |n.socks| ==> SlotsOk(ts, ops, n.fds, sid, n.socks[sid])
  }

  ghost predicate NlsOk(ops: seq<SelectOp>, n: Net) {
    forall i: nat :: i < |n.nls| ==> NlOk(ops, n.fds.netlinks, i, n.nls[i])
  }

  ghost predicate Core(s: State) {
    !s.halted && FdOk(s.net) && QueueOk(s.events, s.nextEvent, s.now) &&
    TraceesOk(s) && EventsOk(s) && OpsOk(s) && SocksOk(s.tracees, s.ops, s.net) && NlsOk(s.ops, s.net)
  }

  /** The threads of `who` are being served; everybody else waits for something. */
  ghost predicate Active(s: State, who: set<Pid>) {
    Core(s) && forall q :: q in s.tracees && s.tracees[q].cont == InFlight <==> q in who
  }

  /** The invariant between simulator events. */
  ghost predicate Inv(s: State) {
    Active(s, {})
  }

  /** Nobody waits on any of these descriptors. */
  ghost predicate Unwaited(s: State, fs: set<Fd>) {
    forall q :: q in s.tracees ==> WaitFds(s.ops, s.tracees[q].cont) !! fs
  }

  // ---- Steps of the proof ------------------------------------------------------------

  /** Nothing refers to a thread that is being served, so its record can be replaced. */
  lemma Elsewhere(s: State, p: Pid, t: Tracee)
    requires Core(s) && p in s.tracees && s.tracees[p].cont == InFlight
    ensures var ts := s.tracees[p := t];
            (forall e :: e in s.events ==> EventOk(ts, s.ops, e, s.events[e].what)) &&
            (forall op: nat :: op < |s.ops| ==> OpOk(ts, op, s.ops[op])) &&
            SocksOk(ts, s.ops, s.net)
  {
    var ts := s.tracees[p := t];
    assert forall q, c :: c != InFlight && HasCont(s.tracees, q, c) ==> HasCont(ts, q, c);
    forall e | e in s.events ensures EventOk(ts, s.ops, e, s.events[e].what) {
      assert EventOk(s.tracees, s.ops, e, s.events[e].what);
    }
    forall op: nat | op < |s.ops| ensures OpOk(ts, op, s.ops[op]) {
      assert OpOk(s.tracees, op, s.ops[op]);
    }
    forall sid: nat | sid < |s.net.socks| ensures SlotsOk(ts, s.ops, s.net.fds, sid, s.net.socks[sid]) {
      assert SlotsOk(s.tracees, s.ops, s.net.fds, sid, s.net.socks[sid]);
    }
  }

  /** Moving a served thread to another stop concerns nobody else. */
  lemma StopKeeps(s: State, p: Pid, stop: Stop, who: set<Pid>)
    requires Active(s, who) && p in who
    ensures p in s.tracees && Active(SetStop(s, p, stop), who)
    ensures SetStop(s, p, stop) == s.(tracees := s.tracees[p := Tracee(stop, InFlight)])
  {
    Elsewhere(s, p, Tracee(stop, InFlight));
  }

  lemma FakeKeeps(s: State, p: Pid, result: Result, stray: Call, who: set<Pid>)
    requires Active(s, who) && p in who && p in s.tracees && s.tracees[p].stop.AtEntry?
    ensures Active(Fake(s, p, result, stray), who)
    ensures Fake(s, p, result, stray) == s.(tracees := s.tracees[p := Tracee(AtExit(result), InFlight)])
  {
    StopKeeps(s, p, AtExit(result), who);
  }

  /** More events take no continuation away. */
  lemma MoreEvents(s: State, events: map<EvId, Event>, q: Pid)
    requires TraceesOk(s) && q in s.tracees
    requires forall e :: e in s.events ==> e in events && events[e] == s.events[e]
    ensures ContOk(events, s.ops, s.net, q, s.tracees[q])
  {
    assert ContOk(s.events, s.ops, s.net, q, s.tracees[q]);
  }

  /** What may be scheduled for thread `p` at stop `stop`, and how that is recorded. */
  predicate Schedulable(p: Pid, stop: Stop, what: What, c: Cont, ev: EvId) {
    (what == Before(p) && c == Resumes(ev) && Parked(stop)) ||
    (what == SleepDone(p) && c == InSleep(ev) && stop.AtEntry? && stop.call.NanoSleep?)
  }

  /** A new event with its thread recorded as waiting for it. */
  lemma HandToQueue(s: State, p: Pid, at: nat, what: What, c: Cont, who: set<Pid>)
    requires Active(s, who) && p in who && p in s.tracees && at >= s.now
    requires Schedulable(p, s.tracees[p].stop, what, c, s.nextEvent)
    ensures Active(HandOver(s, p, at, what, c), who - {p})
    ensures HandOver(s, p, at, what, c).tracees == s.tracees[p := s.tracees[p].(cont := c)]
  {
    var n, t := HandOver(s, p, at, what, c), s.tracees[p].(cont := c);
    Elsewhere(s, p, t);
    QueuedTracees(s, p, at, what, c);
    assert EventsOk(n) by {
      forall e | e in n.events ensures EventOk(n.tracees, n.ops, e, n.events[e].what) {
        if e != s.nextEvent {
          assert EventOk(n.tracees, s.ops, e, s.events[e].what);
        }
      }
    }
  }

  lemma QueuedTracees(s: State, p: Pid, at: nat, what: What, c: Cont)
    requires TraceesOk(s) && QueueOk(s.events, s.nextEvent, s.now) && p in s.tracees
    requires Schedulable(p, s.tracees[p].stop, what, c, s.nextEvent)
    ensures TraceesOk(HandOver(s, p, at, what, c))
  {
    var n := HandOver(s, p, at, what, c);
    assert s.nextEvent !in s.events;
    forall q | q in n.tracees ensures ContOk(n.events, n.ops, n.net, q, n.tracees[q]) {
      if q != p {
        MoreEvents(s, n.events, q);
      }
    }
  }

  /** A served thread that is parked is handed over to the event queue. */
  lemma ResumeKeeps(s: State, p: Pid, who: set<Pid>)
    requires Active(s, who) && p in who && p in s.tracees && Parked(s.tracees[p].stop)
    ensures Active(Resume(s, p), who - {p})
    ensures Resume(s, p).tracees == s.tracees[p := s.tracees[p].(cont := Resumes(s.nextEvent))]
  {
    HandToQueue(s, p, NextDispatch(s), Before(p), Resumes(s.nextEvent), who);
  }

  /** Descriptor `f` looks the same in both networks to whoever waits on it. */
  ghost predicate SameFor(n: Net, m: Net, f: Fd) {
    (f in n.fds.sockets <==> f in m.fds.sockets) &&
    (Known(n, f) ==> Known(m, f) && m.fds.sockets[f] == n.fds.sockets[f] &&
                     m.socks[n.fds.sockets[f]] == n.socks[n.fds.sockets[f]]) &&
    (KnownNl(n, f) ==> KnownNl(m, f) && m.nls[m.fds.netlinks[f]] == n.nls[n.fds.netlinks[f]]) &&
    (KnownNl(m, f) ==> KnownNl(n, f)) &&
    (f in n.fds.fakeAccepted <==> f in m.fds.fakeAccepted)
  }

  lemma SameForKeepsContOk(s: State, m: Net, p: Pid)
    requires p in s.tracees && ContOk(s.events, s.ops, s.net, p, s.tracees[p])
    requires forall f :: f in WaitFds(s.ops, s.tracees[p].cont) ==> SameFor(s.net, m, f)
    ensures ContOk(s.events, s.ops, m, p, s.tracees[p])
  {
    var c := s.tracees[p].cont;
    if c.InRecv? || c.InAccept? || c.InConnect? {
      assert c.fd in WaitFds(s.ops, c);
    }
    if c.InSelect? {
      var o := s.ops[c.op];
      forall f | f in o.watchR ensures WatchesR(m, c.op, f) {
        assert SameFor(s.net, m, f) && WatchesR(s.net, c.op, f);
      }
      forall f | f in o.watchW ensures WatchesW(m, c.op, f) {
        assert SameFor(s.net, m, f) && WatchesW(s.net, c.op, f);
      }
    }
  }

  /** A change of the network that leaves every waited-on descriptor alone. */
  lemma NetChange(s: State, t: State, who: set<Pid>)
    requires Active(s, who) && t == s.(net := t.net, table := t.table)
    requires FdOk(t.net) && SocksOk(s.tracees, s.ops, t.net) && NlsOk(s.ops, t.net)
    requires forall q, f :: q in s.tracees && f in WaitFds(s.ops, s.tracees[q].cont) ==> SameFor(s.net, t.net, f)
    ensures Active(t, who)
  {
    forall q | q in t.tracees ensures ContOk(t.events, t.ops, t.net, q, t.tracees[q]) {
      SameForKeepsContOk(s, t.net, q);
    }
  }

  /** The deferred clean-up of a closed socket resumes nobody. */
  lemma CleanupKeeps(s: State, at: nat, sid: SockId, who: set<Pid>)
    requires Active(s, who) && at >= s.now
    ensures Active(Schedule(s, at, SocketCleanup(sid)), who)
  {
    var t := Schedule(s, at, SocketCleanup(sid));
    assert TraceesOk(t) by {
      forall q | q in t.tracees ensures ContOk(t.events, t.ops, t.net, q, t.tracees[q]) {
        assert ContOk(s.events, s.ops, s.net, q, s.tracees[q]);
      }
    }
  }
}
