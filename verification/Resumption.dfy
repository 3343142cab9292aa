/**
 * What the invariant means for the threads: each has exactly one thing that will resume it. And
 * where the engine loses this: the conditions on its environment are not only sufficient but exact.
 */
module Resumption {
  import opened Base
  import opened NetlinkWire
  import opened Sim
  import opened SimInv
  import opened SimHandlers
  import opened SimCallbacks
  import opened SimServing
  import opened SimFrame

  // ---- What resumes a thread --------------------------------------------------------------

  /** Everything in the simulator that can make a thread go on. A closed socket is only waiting to be disposed of. */
  datatype Source =
    | ByEvent(e: EvId)
    | BySelect(op: OpId)
    | ByData(sid: SockId)
    | ByAccept(sid: SockId)
    | ByConnect(sid: SockId)

  /**
   * A closure of operation `op` that data, a connection, send space or a reply on the open descriptor `f` would run.
   */
  ghost predicate ClosureOn(n: Net, op: OpId, f: Fd) {
    if Known(n, f) then
      var k := n.socks[n.fds.sockets[f]];
      (!k.listens && k.recv.SelectRecv? && k.recv.op == op) ||
      (k.listens && k.accept.SelectAccept? && k.accept.op == op) || (k.send.SelectSend? && k.send.op == op)
    else KnownNl(n, f) && var r := n.nls[n.fds.netlinks[f]].recv; r.SelectNl? && r.op == op
  }

  predicate TimesOut(events: map<EvId, Event>, op: OpId, e: EvId) {
    e in events && events[e].what == SelectTimeout(op)
  }

  /** The source is there and is made for thread `p`. */
  ghost predicate Wakes(s: State, src: Source, p: Pid) {
    match src
    case ByEvent(e) => e in s.events && (s.events[e].what == Before(p) || s.events[e].what == SleepDone(p))
    case BySelect(op) =>
      op < |s.ops| && !s.ops[op].handled && s.ops[op].pid == p &&
      ((exists f :: ClosureOn(s.net, op, f)) || (exists e :: TimesOut(s.events, op, e)))
    case ByData(sid) =>
      TakesData(s.net, sid) && s.net.socks[sid].recv.ReadWait? && s.net.socks[sid].recv.pid == p &&
      exists f :: IsFdOf(s.net.fds.sockets, f, sid)
    case ByAccept(sid) =>
      TakesConnections(s.net, sid) && s.net.socks[sid].accept.AcceptWait? && s.net.socks[sid].accept.pid == p
    case ByConnect(sid) =>
      sid < |s.net.socks| && s.net.socks[sid].connecting && s.net.socks[sid].connect.ConnectWait? &&
      s.net.socks[sid].connect.pid == p && exists f :: IsFdOf(s.net.fds.sockets, f, sid)
  }

  /** The closure of a blocking accept that thread `p` does not wait in, or no longer: it is never taken out. */
  ghost predicate ServedAccept(s: State, sid: SockId, p: Pid) {
    Wakes(s, ByAccept(sid), p) &&
    var f := s.net.socks[sid].accept.fd;
    !(p in s.tracees && s.tracees[p].stop == AtEntry(Accept(f)) && IsFdOf(s.net.fds.sockets, f, sid))
  }

  /** A source that is not just the rest of an accept that has been served. */
  ghost predicate Real(s: State, src: Source, p: Pid) {
    Wakes(s, src, p) && !(src.ByAccept? && ServedAccept(s, src.sid, p))
  }

  // ---- Health ------------------------------------------------------------------------------

  /** A live thread that nothing is going to resume. */
  ghost predicate Lost(s: State, p: Pid) {
    p in s.tracees && forall src :: !Real(s, src, p)
  }

  /** A thread that will be resumed by one source and then, wherever it is by then, by the other. */
  ghost predicate Twice(s: State, p: Pid) {
    exists a, b :: Real(s, a, p) && Real(s, b, p) && a != b
  }

  ghost predicate Scheduled(s: State, p: Pid) {
    exists e :: e in s.events && s.events[e].what == Before(p)
  }

  /** A thread that goes on although the call it stands at the entry of has not been answered. */
  ghost predicate Astray(s: State, p: Pid) {
    p in s.tracees && !Parked(s.tracees[p].stop) && Scheduled(s, p)
  }

  /** A select that has not been answered watches `f`, which is ready, or whose slot does not hold its closure. */
  ghost predicate Deaf(s: State, op: OpId, f: Fd) {
    op < |s.ops| && !s.ops[op].handled &&
    ((f in s.ops[op].watchR && !WatchesR(s.net, op, f)) || (f in s.ops[op].watchW && !WatchesW(s.net, op, f)))
  }

  /**
   * What programs need, said of queue, slots and stops alone: each live thread has exactly one source of resumption,
   * which is a scheduled dispatch exactly if the thread is parked; nothing is left for dead threads; and no select
   * waits for what has happened or would not hear of it.
   */
  ghost predicate Healthy(s: State) {
    (forall p :: p in s.tracees ==>
                   !Lost(s, p) && !Twice(s, p) && (Parked(s.tracees[p].stop) <==> Scheduled(s, p))) &&
    (forall p, src :: Real(s, src, p) ==> p in s.tracees) &&
    (forall op: nat, f :: !Deaf(s, op, f))
  }

  // ---- Exactly one continuation ------------------------------------------------------------

  function SourceOf(n: Net, c: Cont): Source {
    match c
    case Resumes(e) => ByEvent(e)
    case InSleep(e) => ByEvent(e)
    case InSelect(op) => BySelect(op)
    case InRecv(f) => ByData(if f in n.fds.sockets then n.fds.sockets[f] else 0)
    case InAccept(f) => ByAccept(if f in n.fds.sockets then n.fds.sockets[f] else 0)
    case InConnect(f) => ByConnect(if f in n.fds.sockets then n.fds.sockets[f] else 0)
    case _ => ByEvent(0)
  }

  lemma SourceIsThere(s: State, p: Pid)
    requires Inv(s) && p in s.tracees
    ensures Wakes(s, SourceOf(s.net, s.tracees[p].cont), p)
  {
    assert ContOk(s.events, s.ops, s.net, p, s.tracees[p]);
    var c := s.tracees[p].cont;
    if c.InSelect? {
      SelectHears(s, p, c.op);
    } else if c.InRecv? || c.InAccept? || c.InConnect? {
      assert IsFdOf(s.net.fds.sockets, c.fd, s.net.fds.sockets[c.fd]);
      KnownFd(s, c.fd);
    }
  }

  /** A select that waits has a closure on some descriptor. */
  lemma SelectHears(s: State, p: Pid, op: OpId)
    requires FdOk(s.net) && p in s.tracees && s.tracees[p].cont == InSelect(op)
    requires ContOk(s.events, s.ops, s.net, p, s.tracees[p])
    ensures exists f :: ClosureOn(s.net, op, f)
  {
    var o := s.ops[op];
    var f := Least(o.watchR + o.watchW);
    if f in o.watchR {
      assert WatchesR(s.net, op, f);
    } else {
      assert WatchesW(s.net, op, f);
    }
    assert ClosureOn(s.net, op, f);
  }

  /** Whatever wakes a thread is what the thread recorded, or a served accept closure. */
  lemma OnlySource(s: State, p: Pid, src: Source)
    requires Core(s) && Real(s, src, p)
    requires src.ByAccept? ==> s.tracees[p].cont != InFlight
    ensures p in s.tracees && s.tracees[p].cont != InFlight && src == SourceOf(s.net, s.tracees[p].cont)
  {
    match src
    case ByEvent(e) => assert EventOk(s.tracees, s.ops, e, s.events[e].what);
    case BySelect(op) => assert OpOk(s.tracees, op, s.ops[op]);
    case ByData(sid) => assert SlotsOk(s.tracees, s.ops, s.net.fds, sid, s.net.socks[sid]);
    case ByConnect(sid) => assert SlotsOk(s.tracees, s.ops, s.net.fds, sid, s.net.socks[sid]);
    case ByAccept(sid) => assert ContOk(s.events, s.ops, s.net, p, s.tracees[p]);
  }

  /** A thread's own source is not a served closure. */
  lemma OwnSourceNotServed(s: State, p: Pid, sid: SockId)
    requires Inv(s) && p in s.tracees && SourceOf(s.net, s.tracees[p].cont) == ByAccept(sid)
    ensures !ServedAccept(s, sid, p)
  {
    assert ContOk(s.events, s.ops, s.net, p, s.tracees[p]);
  }

  /**
   * Between events a live thread has a source of resumption. It is the only one exactly if no accept closure that
   * has served the thread is left in a slot; a dead thread has none but such closures.
   */
  lemma ExactlyOneContinuation(s: State, p: Pid)
    requires Inv(s)
    ensures p in s.tracees ==> exists src :: Wakes(s, src, p)
    ensures p in s.tracees ==>
              ((forall src, src' :: Wakes(s, src, p) && Wakes(s, src', p) ==> src == src') <==>
               (forall sid :: !ServedAccept(s, sid, p)))
    ensures forall src :: Wakes(s, src, p) ==>
              (p in s.tracees && src == SourceOf(s.net, s.tracees[p].cont)) ||
              (src.ByAccept? && ServedAccept(s, src.sid, p))
  {
    forall src | Wakes(s, src, p)
      ensures (p in s.tracees && src == SourceOf(s.net, s.tracees[p].cont)) ||
              (src.ByAccept? && ServedAccept(s, src.sid, p))
    {
      if !(src.ByAccept? && ServedAccept(s, src.sid, p)) {
        OnlySource(s, p, src);
      }
    }
    if p in s.tracees {
      SourceIsThere(s, p);
      if sid :| ServedAccept(s, sid, p) {
        assert ByAccept(sid) != SourceOf(s.net, s.tracees[p].cont) by {
          if ByAccept(sid) == SourceOf(s.net, s.tracees[p].cont) {
            OwnSourceNotServed(s, p, sid);
          }
        }
      }
    }
  }

  /**
   * That source is a scheduled dispatch precisely when the thread stands past the entry of its call, or at the
   * entry of one of the calls that are never taken to their exit; else it is a live blocked operation.
   */
  lemma ScheduledIffParked(s: State, p: Pid)
    requires Inv(s) && p in s.tracees
    ensures Parked(s.tracees[p].stop) <==> exists e :: e in s.events && s.events[e].what == Before(p)
  {
    assert ContOk(s.events, s.ops, s.net, p, s.tracees[p]);
    forall e | e in s.events && s.events[e].what == Before(p) ensures HasCont(s.tracees, p, Resumes(e)) {
      assert EventOk(s.tracees, s.ops, e, s.events[e].what);
    }
  }

  /** The invariant is what keeps the simulator healthy. */
  lemma InvHealthy(s: State)
    requires Inv(s)
    ensures Healthy(s)
  {
    forall p | p in s.tracees ensures !Lost(s, p) && !Twice(s, p) && (Parked(s.tracees[p].stop) <==> Scheduled(s, p)) {
      ScheduledIffParked(s, p);
      SourceIsThere(s, p);
      RealIsOwn(s, p);
      OwnIsReal(s, p);
    }
    forall p, src | Real(s, src, p) ensures p in s.tracees {
      RealIsOwn(s, p);
    }
    forall op: nat, f ensures !Deaf(s, op, f) {
      if op < |s.ops| && !s.ops[op].handled {
        Unanswered(s, op);
        assert ContOk(s.events, s.ops, s.net, s.ops[op].pid, s.tracees[s.ops[op].pid]);
      }
    }
  }

  lemma RealIsOwn(s: State, p: Pid)
    requires Inv(s)
    ensures forall src :: Real(s, src, p) ==> p in s.tracees && src == SourceOf(s.net, s.tracees[p].cont)
  {
    forall src | Real(s, src, p) ensures p in s.tracees && src == SourceOf(s.net, s.tracees[p].cont) {
      OnlySource(s, p, src);
    }
  }

  lemma OwnIsReal(s: State, p: Pid)
    requires Inv(s) && p in s.tracees
    ensures Real(s, SourceOf(s.net, s.tracees[p].cont), p)
  {
    var src := SourceOf(s.net, s.tracees[p].cont);
    SourceIsThere(s, p);
    if src.ByAccept? {
      OwnSourceNotServed(s, p, src.sid);
    }
  }

  // ---- The conditions are exact ----------------------------------------------------------------

  lemma AstrayHarms(s: State, p: Pid)
    requires Astray(s, p)
    ensures !Healthy(s) && !Inv(s)
  {
    if Inv(s) {
      InvHealthy(s);
    }
  }

  /** A thread that is resumed without an answer. */
  lemma ResumedAtEntry(s: State, p: Pid)
    requires p in s.tracees && !Parked(s.tracees[p].stop)
    ensures Astray(Resume(s, p), p)
  {
    assert Resume(s, p).events[s.nextEvent].what == Before(p);
  }

  /** Select's receive closure answers the member pid: right exactly if the waiting thread was dispatched last. */
  lemma DataExact(s: State, sid: SockId, rx: nat, ans: Answer)
    requires Inv(s) && TakesData(s.net, sid)
    requires s.net.socks[sid].recv.SelectRecv? && !RecvIdle(s.ops, s.net.socks[sid].recv)
    ensures s.net.socks[sid].recv.op < |s.ops|
    ensures var p, t := s.ops[s.net.socks[sid].recv.op].pid, OnData(s, sid, rx, ans);
            (Inv(t) <==> s.pid == p) && (s.pid != p ==> Astray(t, p))
  {
    var r := s.net.socks[sid].recv;
    assert SlotsOk(s.tracees, s.ops, s.net.fds, sid, s.net.socks[sid]);
    var p := s.ops[r.op].pid;
    if s.pid == p {
      DataKeeps(s, sid, rx, ans);
    } else {
      Unanswered(s, r.op);
      StrayData(s, sid, rx, ans, p);
      AstrayHarms(OnData(s, sid, rx, ans), p);
    }
  }

  lemma StrayData(s: State, sid: SockId, rx: nat, ans: Answer, p: Pid)
    requires sid < |s.net.socks| && s.net.socks[sid].recv.SelectRecv?
    requires var op := s.net.socks[sid].recv.op; op < |s.ops| && !s.ops[op].handled && s.ops[op].pid == p
    requires p in s.tracees && s.pid != p && !Parked(s.tracees[p].stop)
    ensures Astray(OnData(s, sid, rx, ans), p)
  {
    var t := OnData(s, sid, rx, ans);
    assert t.tracees[p].stop == s.tracees[p].stop;
    assert t.events[s.nextEvent].what == Before(p);
  }

  /** A blocking accept's closure: right exactly if its thread waits in accept and was dispatched last. */
  lemma ConnectionExact(s: State, sid: SockId, ans: Answer)
    requires Inv(s) && TakesConnections(s.net, sid) && s.net.fds.available != {}
    requires s.net.socks[sid].accept.AcceptWait?
    ensures var p, t := s.net.socks[sid].accept.pid, OnConnection(s, sid, ans);
            (Inv(t) <==> AcceptServes(s, p)) &&
            (!AcceptServes(s, p) ==> Astray(t, p) || Twice(t, p) || (p !in t.tracees && Scheduled(t, p)))
  {
    var p, t := s.net.socks[sid].accept.pid, OnConnection(s, sid, ans);
    if AcceptServes(s, p) {
      ConnectionKeeps(s, sid, ans);
    } else {
      StrayForm(s, sid, ans);
      StrayAccept(s, t, p, NextDispatch(s));
      StrayHarms(t, p);
    }
  }

  lemma StrayHarms(t: State, p: Pid)
    requires Astray(t, p) || Twice(t, p) || (p !in t.tracees && Scheduled(t, p))
    ensures !Healthy(t) && !Inv(t)
  {
    if p !in t.tracees {
      if e :| e in t.events && t.events[e].what == Before(p) {
        assert Real(t, ByEvent(e), p);
      }
    }
    if Inv(t) {
      InvHealthy(t);
    }
  }

  /** What the stray closure does: it schedules its thread. */
  ghost predicate StrayResumes(s: State, t: State, p: Pid, at: nat) {
    t.events == s.events[s.nextEvent := Event(at, Before(p))] && t.ops == s.ops && t.net.nls == s.net.nls &&
    t.net.socks == s.net.socks + [FRESH_SOCK] && t.tracees.Keys == s.tracees.Keys && s.net.fds.available != {} &&
    t.net.fds == WithAccepted(s.net.fds, Least(s.net.fds.available), |s.net.socks|) &&
    (p in s.tracees && p != s.pid ==> t.tracees[p].stop == s.tracees[p].stop)
  }

  lemma StrayForm(s: State, sid: SockId, ans: Answer)
    requires sid < |s.net.socks| && s.net.fds.available != {} && s.net.socks[sid].accept.AcceptWait?
    ensures StrayResumes(s, OnConnection(s, sid, ans), s.net.socks[sid].accept.pid, NextDispatch(s))
  {
  }

  lemma StrayAccept(s: State, t: State, p: Pid, at: nat)
    requires Inv(s) && StrayResumes(s, t, p, at) && !AcceptServes(s, p)
    ensures Astray(t, p) || Twice(t, p) || (p !in t.tracees && Scheduled(t, p))
  {
    assert t.events[s.nextEvent].what == Before(p);
    if p in s.tracees {
      assert ContOk(s.events, s.ops, s.net, p, s.tracees[p]);
      if !s.tracees[p].cont.InAccept? {
        var src := SourceOf(s.net, s.tracees[p].cont);
        StillWakes(s, t, p, at);
        assert Real(t, src, p) && Real(t, ByEvent(s.nextEvent), p);
      }
    }
  }

  lemma StillWakes(s: State, t: State, p: Pid, at: nat)
    requires Inv(s) && p in s.tracees && !s.tracees[p].cont.InAccept? && StrayResumes(s, t, p, at)
    ensures var src := SourceOf(s.net, s.tracees[p].cont);
            Wakes(t, src, p) && !src.ByAccept? && src != ByEvent(s.nextEvent)
  {
    SourceIsThere(s, p);
    var src := SourceOf(s.net, s.tracees[p].cont);
    StillOpen(s, t, p, at);
    match src
    case BySelect(op) =>
      if f :| ClosureOn(s.net, op, f) {
        assert ClosureOn(t.net, op, f);
      } else {
        var e :| TimesOut(s.events, op, e);
        assert TimesOut(t.events, op, e);
      }
    case _ =>
  }

  lemma StillOpen(s: State, t: State, p: Pid, at: nat)
    requires FdOk(s.net) && StrayResumes(s, t, p, at)
    ensures forall f, i :: IsFdOf(s.net.fds.sockets, f, i) ==> IsFdOf(t.net.fds.sockets, f, i)
    ensures forall op, f :: ClosureOn(s.net, op, f) ==> ClosureOn(t.net, op, f)
  {
  }

  /** Closing a socket keeps the invariant exactly if no other thread waits on it. */
  lemma CloseExact(s: State, p: Pid, fd: Fd)
    requires Active(s, {p}) && fd in s.net.fds.sockets
    ensures Active(CloseSocket(s, fd), {p}) <==> Unwaited(s, {fd})
  {
    var t := CloseSocket(s, fd);
    if Unwaited(s, {fd}) {
      SocketClosedActive(s, p, fd);
    } else if Active(t, {p}) {
      var q :| q in s.tracees && fd in WaitFds(s.ops, s.tracees[q].cont);
      WaitedIsOpen(t, q, fd);
      assert false;
    }
  }

  /** A netlink request keeps the invariant exactly if whoever waits for replies hears of them. */
  lemma HeardExact(s: State, p: Pid, fd: Fd, es: seq<Effect>, returned: int, ans: Answer)
    requires Active(s, {p}) && p in s.tracees && s.tracees[p].stop.AtEntry? && KnownNl(s.net, fd)
    requires s.net.nls[s.net.fds.netlinks[fd]].owner == p
    ensures Active(NetlinkSend(s, fd, Fine(es), returned, ans).s, {p}) <==> Heard(s, fd, Fine(es))
  {
    if Heard(s, fd, Fine(es)) {
      NetlinkSendOk(s, p, fd, Fine(es), returned, ans);
    } else {
      var q :| q in s.tracees && fd in WaitFds(s.ops, s.tracees[q].cont);
      LostReply(s, p, q, fd, es, returned, ans);
    }
  }

  /** Requests that are not dumps leave a reply but notify nobody. */
  lemma {:induction false} SilentReplies(es: seq<Effect>)
    requires !Notifies(es) && es != []
    ensures RepliesOf(es) != []
  {
    assert !es[0].Dump?;
  }

  lemma LostReply(s: State, p: Pid, q: Pid, fd: Fd, es: seq<Effect>, returned: int, ans: Answer)
    requires Active(s, {p}) && p in s.tracees && s.tracees[p].stop.AtEntry? && KnownNl(s.net, fd)
    requires s.net.nls[s.net.fds.netlinks[fd]].owner == p
    requires q in s.tracees && fd in WaitFds(s.ops, s.tracees[q].cont) && es != [] && !Notifies(es)
    ensures !Active(NetlinkSend(s, fd, Fine(es), returned, ans).s, {p})
  {
    var t := NetlinkSend(s, fd, Fine(es), returned, ans).s;
    SilentReplies(es);
    assert ContOk(s.events, s.ops, s.net, q, s.tracees[q]);
    assert p != q && fd !in s.net.fds.sockets;
    var c := s.tracees[q].cont;
    assert c.InSelect?;
    forall f | f in s.ops[c.op].watchW ensures f in s.net.fds.sockets {
      assert WatchesW(s.net, c.op, f);
    }
    assert fd in s.ops[c.op].watchR;
    assert t.tracees[q] == s.tracees[q] && t.ops == s.ops;
    assert Readable(t.net, fd);
    assert !WatchesR(t.net, c.op, fd);
    assert !ContOk(t.events, t.ops, t.net, q, t.tracees[q]);
  }

  /** A netlink socket answers its owner: a call on it is survived exactly if the caller is the thread that made it. */
  lemma OwnerExact(s: State, p: Pid, c: Call, ans: Answer)
    requires Serving(s, p, c) && c.RecvMsg? && KnownNl(s.net, c.fd) && Handle(s, p, c, ans).code != Error
    ensures var r := Handle(s, p, c, ans);
            Inv(ProcessStatusCode(r.s, r.code, p)) <==> OwnCall(s.net, p, c)
  {
    var r := Handle(s, p, c, ans);
    if OwnCall(s.net, p, c) {
      OwnReceiveKeeps(s, p, c, ans);
    } else {
      NotAnswered(s, p, c, ans);
      AstrayHarms(ProcessStatusCode(r.s, r.code, p), p);
    }
  }

  lemma OwnReceiveKeeps(s: State, p: Pid, c: Call, ans: Answer)
    requires Serving(s, p, c) && c.RecvMsg? && OwnCall(s.net, p, c) && Handle(s, p, c, ans).code in {Success, Failure}
    ensures var r := Handle(s, p, c, ans); Inv(ProcessStatusCode(r.s, r.code, p))
  {
    RecvMsgOk(s, p, c, ans);
    assert {p} - {p} == {};
    ResumeKeeps(Handle(s, p, c, ans).s, p, {p});
  }

  /** A caller that does not own the netlink socket stays at the entry of its call, and is scheduled there. */
  lemma NotAnswered(s: State, p: Pid, c: Call, ans: Answer)
    requires Active(s, {p}) && p in s.tracees && s.tracees[p].stop == AtEntry(c)
    requires !OwnCall(s.net, p, c) && Handle(s, p, c, ans).code != Error
    ensures var r := Handle(s, p, c, ans);
            var t := ProcessStatusCode(r.s, r.code, p);
            p in t.tracees && t.tracees[p].stop == AtEntry(c) && Astray(t, p)
  {
    LeftAtEntry(s, p, c, ans);
    ResumedAtEntry(Handle(s, p, c, ans).s, p);
  }

  lemma LeftAtEntry(s: State, p: Pid, c: Call, ans: Answer)
    requires Active(s, {p}) && p in s.tracees && s.tracees[p].stop == AtEntry(c)
    requires !OwnCall(s.net, p, c) && Handle(s, p, c, ans).code != Error
    ensures var r := Handle(s, p, c, ans);
            r.code in {Success, Failure} && p in r.s.tracees && r.s.tracees[p] == s.tracees[p]
  {
    var owner := s.net.nls[s.net.fds.netlinks[c.fd]].owner;
    OwnerIsAnswered(s, p, owner, c, ans);
    CallMoves(s, owner, c, ans);
    NotNotified(s, p, c);
  }

  /** Who calls makes no difference. */
  lemma OwnerIsAnswered(s: State, p: Pid, q: Pid, c: Call, ans: Answer)
    requires FdOk(s.net) && (c.SendTo? || c.SendMsg? || c.RecvMsg?) && KnownNl(s.net, c.fd)
    ensures Handle(s, p, c, ans) == Handle(s, q, c, ans) && Handle(s, p, c, ans).code in {Success, Failure, Error}
  {
  }

  /** A thread that is being served waits in no select. */
  lemma NotNotified(s: State, p: Pid, c: Call)
    requires Active(s, {p}) && p in s.tracees
    ensures !PidOf(s.ops, NotifiedBy(s, c), p)
  {
    if RequestOf(s, c).Some? {
      NlWatcher(s, RequestOf(s, c).value.0);
    }
  }

  /** A write that blocks is never resumed: nothing is left to wake its thread, and send space does not. */
  lemma BlockedWriteIsLost(s: State, p: Pid, fd: Fd, count: nat, tx: nat, ans: Answer, ans': Answer)
    requires Active(s, {p}) && p in s.tracees && s.tracees[p].stop == AtEntry(Write(fd, count))
    requires WriteBlocks(s.net, fd)
    ensures var r := HandleWrite(s, p, fd, count, ans);
            var sid := s.net.fds.sockets[fd];
            r.code == Delayed && Lost(r.s, p) && sid < |r.s.net.socks| &&
            OnSpace(r.s, sid, tx, ans') == SetSock(r.s, sid, r.s.net.socks[sid].(tx := tx)) &&
            Lost(OnSpace(r.s, sid, tx, ans'), p)
  {
    var r, sid := HandleWrite(s, p, fd, count, ans), s.net.fds.sockets[fd];
    ServedIsLost(s, p);
    StillLost(s, r.s, p);
    StillLost(s, OnSpace(r.s, sid, tx, ans'), p);
  }

  /** While a thread is being served in anything but accept, nothing else is about to resume it. */
  lemma ServedIsLost(s: State, p: Pid)
    requires Active(s, {p}) && p in s.tracees && s.tracees[p].stop.AtEntry? && !s.tracees[p].stop.call.Accept?
    ensures Lost(s, p)
  {
    forall src ensures !Real(s, src, p) {
      if Real(s, src, p) && !src.ByAccept? {
        OnlySource(s, p, src);
      }
    }
  }

  lemma StillLost(s: State, t: State, p: Pid)
    requires Lost(s, p) && t.events == s.events && t.ops == s.ops && |t.net.socks| == |s.net.socks|
    requires p in t.tracees && t.tracees[p].stop == s.tracees[p].stop
    requires t.net == s.net.(socks := t.net.socks)
    requires forall i: nat :: i < |s.net.socks| ==>
               t.net.socks[i] == s.net.socks[i].(tx := t.net.socks[i].tx, send := t.net.socks[i].send) &&
               (t.net.socks[i].send.SelectSend? ==> t.net.socks[i].send == s.net.socks[i].send)
    ensures Lost(t, p)
  {
    forall src ensures !Real(t, src, p) {
      if Real(t, src, p) {
        if src.BySelect? {
          if f :| ClosureOn(t.net, src.op, f) {
            assert ClosureOn(s.net, src.op, f);
          }
        }
        assert Real(s, src, p);
      }
    }
  }
}
