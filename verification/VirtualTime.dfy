/** The virtual clock: what programs read from it, and how it moves while threads run, sleep and poll. */
module VirtualTime {
  import opened Base
  import opened NetlinkWire
  import opened Sim
  import opened SimInv
  import opened SimCallbacks
  import opened SimServing
  import opened SimRun
  import opened SimFrame
  import opened SelectWakeups
  import EE = EndToEnd
  import NL = Netlink

  // ---- Reading the clock ----------------------------------------------------------------------

  /** Both parts of gettimeofday's answer are in range and together give the time in microseconds. */
  lemma MicroClockExact(now: nat)
    ensures var c := MicroClock(now);
            c.sub < 1000000 && c.sec * 1000000 + c.sub == now / 1000
  {
  }

  /** Both parts of clock_gettime's answer are in range and together give the time. */
  lemma NanoClockExact(now: nat)
    ensures var c := NanoClock(now);
            c.sub < 1000000000 && c.sec * 1000000000 + c.sub == now
  {
  }

  /** The two clocks agree up to truncation. */
  lemma ClocksAgree(now: nat)
    ensures MicroClock(now).sec == NanoClock(now).sec && MicroClock(now).sub == NanoClock(now).sub / 1000
  {
  }

  /** Seconds before the rest. */
  predicate NotAfter(a: Result, b: Result)
    requires a.Clock? && b.Clock?
  {
    a.sec < b.sec || (a.sec == b.sec && a.sub <= b.sub)
  }

  /** Later readings are not earlier. */
  lemma ReadingsMonotone(a: nat, b: nat)
    requires a <= b
    ensures NotAfter(MicroClock(a), MicroClock(b)) && NotAfter(NanoClock(a), NanoClock(b))
  {
    MicroClockExact(a);
    MicroClockExact(b);
    NanoClockExact(a);
    NanoClockExact(b);
  }

  // ---- The clock over a run -----------------------------------------------------------------------

  /** Events that were there are as they were. */
  ghost predicate OldEvents(s: State, t: State) {
    s.nextEvent <= t.nextEvent && s.now <= t.now &&
    forall e :: e in t.events && e < s.nextEvent ==> e in s.events && t.events[e] == s.events[e]
  }

  lemma SettledOld(s: State, s0: State, t: State)
    requires s0.now >= s.now && s0.nextEvent == s.nextEvent && s0.events.Keys <= s.events.Keys
    requires forall e :: e in s0.events ==> s0.events[e] == s.events[e]
    requires Settled(s0, t)
    ensures OldEvents(s, t)
  {
  }

  lemma SettledTwice(s: State, t: State, u: State)
    requires Settled(s, t) && Settled(t, u)
    ensures Settled(s, u)
  {
  }

  lemma DispatchSettled(s: State, e: EvId, next: Call, ans: Answer)
    requires CaughtBy(s, e, next).Some? && !CaughtBy(s, e, next).value.Clone?
    requires OwnCall(s.net, s.events[e].what.pid, CaughtBy(s, e, next).value)
    ensures Settled(Dispatched(s, e, s.events[e].what.pid, next), Next(s, Step(Fire(e, next), ans)))
  {
    var p := s.events[e].what.pid;
    var d, c := Dispatched(s, e, p, next), Caught(s, p, next);
    var r := Handle(d, p, c, ans);
    EE.DispatchForm(s, e, next, ans);
    CallMoves(d, p, c, ans);
    StatusFrame(r, p);
    SettledTwice(d, r.s, ProcessStatusCode(r.s, r.code, p));
  }

  lemma CloneOld(s: State, e: EvId, next: Call, ans: Answer)
    requires CaughtBy(s, e, next) == Some(Clone) && s.events[e].at >= s.now
    ensures OldEvents(s, Next(s, Step(Fire(e, next), ans)))
  {
  }

  lemma EventSettled(s: State, e: EvId, next: Call, ans: Answer)
    requires Inv(s) && IsNext(s.events, e) && CaughtBy(s, e, next).None?
    ensures OldEvents(s, Next(s, Step(Fire(e, next), ans)))
  {
    assert EventOk(s.tracees, s.ops, e, s.events[e].what);
    if s.events[e].what.SelectTimeout? {
      TimeoutSettled(s, e, next, ans);
    } else if s.events[e].what.SleepDone? {
      var s1 := s.(now := s.events[e].at, events := s.events - {e});
      WakeFrame(s1, s1, s.events[e].what.pid, Value(0), ans.stray);
      SettledOld(s, s1, Resume(Fake(s1, s.events[e].what.pid, Value(0), ans.stray), s.events[e].what.pid));
    }
  }

  lemma TimeoutSettled(s: State, e: EvId, next: Call, ans: Answer)
    requires e in s.events && s.events[e].at >= s.now && s.events[e].what.SelectTimeout? &&
             StillWaits(s.ops, s.events[e].what.op)
    ensures OldEvents(s, Next(s, Step(Fire(e, next), ans)))
  {
    var s1, op := s.(now := s.events[e].at, events := s.events - {e}), s.events[e].what.op;
    FinishFrame(s1, op, s.ops[op].pid, SelectTimedOut, ans.stray);
    SettledOld(s, s1, FinishSelect(s1, op, s.ops[op].pid, SelectTimedOut, ans.stray));
  }

  lemma CallbackSettled(s: State, step: Step)
    requires Inv(s) && Enabled(s, step) && Disciplined(s, step) && !step.act.Fire? && !Next(s, step).halted
    ensures Settled(s.(now := step.act.at), Next(s, step))
  {
    match step.act
    case Data(at, sid, rx) => DataFrame(s.(now := at), sid, rx, step.ans);
    case Space(at, sid, tx) => SpaceFrame(s.(now := at), sid, tx, step.ans);
    case Connection(at, sid) => ConnectionFrame(s.(now := at), sid, step.ans);
    case ConnectEnds(at, sid, ok) => ConnectFrame(s.(now := at), sid, ok, step.ans);
  }

  lemma StepOld(s: State, step: Step)
    requires Inv(s) && Enabled(s, step) && Disciplined(s, step) && !Next(s, step).halted
    ensures OldEvents(s, Next(s, step))
  {
    if !step.act.Fire? {
      CallbackSettled(s, step);
      SettledOld(s, s.(now := step.act.at), Next(s, step));
    } else if CaughtBy(s, step.act.e, step.act.next).None? {
      EventSettled(s, step.act.e, step.act.next, step.ans);
    } else if CaughtBy(s, step.act.e, step.act.next) == Some(Clone) {
      CloneOld(s, step.act.e, step.act.next, step.ans);
    } else {
      DispatchOld(s, step.act.e, step.act.next, step.ans);
    }
  }

  lemma DispatchOld(s: State, e: EvId, next: Call, ans: Answer)
    requires CaughtBy(s, e, next).Some? && !CaughtBy(s, e, next).value.Clone? && s.events[e].at >= s.now
    requires OwnCall(s.net, s.events[e].what.pid, CaughtBy(s, e, next).value)
    ensures OldEvents(s, Next(s, Step(Fire(e, next), ans)))
  {
    DispatchSettled(s, e, next, ans);
    SettledOld(s, Dispatched(s, e, s.events[e].what.pid, next), Next(s, Step(Fire(e, next), ans)));
  }

  // ---- The clock over any run ----------------------------------------------------------------------

  /** Events lie ahead. */
  ghost predicate Ahead(s: State) {
    QueueOk(s.events, s.nextEvent, s.now)
  }

  lemma SettledAhead(s: State, t: State)
    requires Ahead(s) && Settled(s, t)
    ensures Ahead(t) && t.now == s.now
  {
  }

  /** No call but a clone does anything to the queue that its thread's own answer does not. */
  lemma CallSettled(s: State, p: Pid, c: Call, ans: Answer)
    requires !c.Clone?
    ensures Settled(s, Handle(s, p, c, ans).s)
  {
    match c
    case SendTo(fd, buf, flags, _) =>
      if RequestOf(s, c).Some? {
        SendMoves(s, s.net.nls[s.net.fds.netlinks[fd]].owner, fd, WalkMsgs(buf, s.app.devices), LeftoverValue(buf),
                  ans);
      }
    case SendMsg(fd, iov) =>
      if RequestOf(s, c).Some? {
        SendMoves(s, s.net.nls[s.net.fds.netlinks[fd]].owner, fd, WalkBuffers(iov, s.app.devices), NL.TotalLen(iov),
                  ans);
      }
    case RecvMsg(fd, len) =>
      if KnownNl(s.net, fd) {
        RecvMsgMoves(s, s.net.nls[s.net.fds.netlinks[fd]].owner, fd, len, ans);
      }
    case _ => CallFrame(s, p, c, ans);
  }


  lemma CloneAhead(s: State, p: Pid, ans: Answer)
    requires Ahead(s)
    ensures var t := HandleClone(s, p, ans).s; Ahead(t) && t.now == s.now
  {
  }

  lemma DispatchAhead(s: State, e: EvId, next: Call, ans: Answer)
    requires Ahead(s) && IsNext(s.events, e) && CaughtBy(s, e, next).Some?
    ensures var t := Next(s, Step(Fire(e, next), ans)); Ahead(t) && t.now >= s.now
  {
    var p, c := s.events[e].what.pid, CaughtBy(s, e, next).value;
    var d := Dispatched(s, e, p, next);
    var r := Handle(d, p, c, ans);
    EE.DispatchForm(s, e, next, ans);
    DispatchedAhead(s, e, p, next);
    if c.Clone? {
      CloneAhead(d, p, ans);
    } else {
      CallSettled(d, p, c, ans);
      SettledAhead(d, r.s);
    }
    StatusFrame(r, p);
    SettledAhead(r.s, ProcessStatusCode(r.s, r.code, p));
  }

  lemma DispatchedAhead(s: State, e: EvId, p: Pid, next: Call)
    requires Ahead(s) && IsNext(s.events, e) && p in s.tracees
    ensures var d := Dispatched(s, e, p, next); Ahead(d) && d.now == s.events[e].at && d.now >= s.now
  {
  }

  lemma EventAhead(s: State, e: EvId, next: Call, ans: Answer)
    requires Ahead(s) && IsNext(s.events, e) && CaughtBy(s, e, next).None?
    ensures var t := Next(s, Step(Fire(e, next), ans)); Ahead(t) && t.now >= s.now
  {
    var s1 := s.(now := s.events[e].at, events := s.events - {e});
    assert Ahead(s1);
    match s.events[e].what
    case SelectTimeout(op) =>
      if StillWaits(s.ops, op) {
        FinishFrame(s1, op, s.ops[op].pid, SelectTimedOut, ans.stray);
        SettledAhead(s1, FinishSelect(s1, op, s.ops[op].pid, SelectTimedOut, ans.stray));
      }
    case SleepDone(p) =>
      WakeFrame(s1, s1, p, Value(0), ans.stray);
      SettledAhead(s1, Resume(Fake(s1, p, Value(0), ans.stray), p));
    case Before(_) =>
    case SocketCleanup(_) =>
  }

  /** Callbacks leave the clock and what was scheduled alone. */
  lemma DataSettled(s: State, sid: SockId, rx: nat, ans: Answer)
    requires sid < |s.net.socks|
    ensures Settled(s, OnData(s, sid, rx, ans))
  {
    var r := s.net.socks[sid].recv;
    if r.SelectRecv? && StillWaits(s.ops, r.op) {
      FinishFrame(SetSock(s, sid, s.net.socks[sid].(rx := rx)), r.op, s.pid, OneRead(s.ops[r.op], r.fd), ans.stray);
    } else {
      DataFrame(s, sid, rx, ans);
    }
  }

  lemma ConnectionSettled(s: State, sid: SockId, ans: Answer)
    requires sid < |s.net.socks|
    ensures Settled(s, OnConnection(s, sid, ans))
  {
    var a := s.net.socks[sid].accept;
    if a.SelectAccept? && StillWaits(s.ops, a.op) && Known(s.net, a.fd) {
      SelectAcceptFrame(s, sid, ans);
    } else if a.AcceptWait? && s.net.fds.available != {} {
      AcceptWaitSettled(s, sid, ans);
    }
  }

  lemma AcceptWaitSettled(s: State, sid: SockId, ans: Answer)
    requires sid < |s.net.socks| && s.net.socks[sid].accept.AcceptWait? && s.net.fds.available != {}
    ensures Settled(s, OnConnection(s, sid, ans))
  {
  }

  lemma CallbackAhead(s: State, step: Step)
    requires Ahead(s) && Enabled(s, step) && !step.act.Fire?
    ensures Ahead(Next(s, step)) && Next(s, step).now >= s.now
  {
    var s1 := s.(now := step.act.at);
    assert Ahead(s1);
    match step.act
    case Data(at, sid, rx) => DataSettled(s1, sid, rx, step.ans);
    case Space(at, sid, tx) => SpaceFrame(s1, sid, tx, step.ans);
    case Connection(at, sid) => ConnectionSettled(s1, sid, step.ans);
    case ConnectEnds(at, sid, ok) => ConnectFrame(s1, sid, ok, step.ans);
  }

  /** In any step that the environment can take time goes on and events stay ahead, whatever threads do. */
  lemma StepAhead(s: State, step: Step)
    requires Ahead(s) && Enabled(s, step)
    ensures Ahead(Next(s, step)) && Next(s, step).now >= s.now
  {
    if !step.act.Fire? {
      CallbackAhead(s, step);
    } else if CaughtBy(s, step.act.e, step.act.next).Some? {
      DispatchAhead(s, step.act.e, step.act.next, step.ans);
    } else {
      EventAhead(s, step.act.e, step.act.next, step.ans);
    }
  }

  /** Over any run that the environment can produce virtual time only grows. */
  lemma {:induction false} TimeNeverRunsBack(s: State, steps: seq<Step>)
    requires Ahead(s) && Possible(s, steps)
    ensures Ahead(RunAll(s, steps)) && RunAll(s, steps).now >= s.now
    decreases steps
  {
    if steps != [] && !s.halted {
      StepAhead(s, steps[0]);
      TimeNeverRunsBack(Next(s, steps[0]), steps[1..]);
    }
  }

  // ---- Threads move when their own source fires ----------------------------------------------------

  /** The step is the one that thread `q` waits for. */
  ghost predicate Fires(s: State, step: Step, q: Pid)
    requires q in s.tracees
  {
    match s.tracees[q].cont
    case Resumes(e) => step.act.Fire? && step.act.e == e
    case InSleep(e) => step.act.Fire? && step.act.e == e
    case InSelect(op) => op < |s.ops| && Answers(s, Next(s, step), op)
    case InRecv(f) => step.act.Data? && IsFdOf(s.net.fds.sockets, f, step.act.sid)
    case InAccept(_) =>
      step.act.Connection? && step.act.sid < |s.net.socks| && s.net.socks[step.act.sid].accept.AcceptWait? &&
      s.net.socks[step.act.sid].accept.pid == q
    case InConnect(f) => step.act.ConnectEnds? && IsFdOf(s.net.fds.sockets, f, step.act.sid)
    case _ => false
  }

  ghost predicate Still(s: State, t: State, q: Pid) {
    q in s.tracees ==> q in t.tracees && t.tracees[q] == s.tracees[q]
  }

  lemma DispatchThread(s: State, e: EvId, next: Call, ans: Answer, q: Pid)
    requires Inv(s) && Enabled(s, Step(Fire(e, next), ans)) && Disciplined(s, Step(Fire(e, next), ans))
    requires CaughtBy(s, e, next).Some? && q in s.tracees
    ensures Still(s, Next(s, Step(Fire(e, next), ans)), q) || Fires(s, Step(Fire(e, next), ans), q)
  {
    var p, c := s.events[e].what.pid, CaughtBy(s, e, next).value;
    var d := Dispatched(s, e, p, next);
    assert EventOk(s.tracees, s.ops, e, s.events[e].what);
    DispatchedActive(s, e, p, next);
    EE.DispatchForm(s, e, next, ans);
    if q != p {
      if !c.Clone? && PidOf(d.ops, NotifiedBy(d, c), q) {
        NotifiedFires(s, e, next, ans, q);
      } else {
        StatusFrame(Handle(d, p, c, ans), p);
        BystanderStill(d, p, c, ans, q);
      }
    }
  }

  lemma BystanderStill(d: State, p: Pid, c: Call, ans: Answer, q: Pid)
    requires q in d.tracees && q != p && (c.Clone? ==> ans.tid !in d.tracees)
    requires !c.Clone? ==> !PidOf(d.ops, NotifiedBy(d, c), q) && OwnCall(d.net, p, c)
    ensures Still(d, Handle(d, p, c, ans).s, q)
  {
    if !c.Clone? {
      CallMoves(d, p, c, ans);
    }
  }

  lemma NotifiedFires(s: State, e: EvId, next: Call, ans: Answer, q: Pid)
    requires Inv(s) && Enabled(s, Step(Fire(e, next), ans)) && Disciplined(s, Step(Fire(e, next), ans))
    requires CaughtBy(s, e, next).Some? && q in s.tracees
    requires var d, c := Dispatched(s, e, s.events[e].what.pid, next), CaughtBy(s, e, next).value;
             PidOf(d.ops, NotifiedBy(d, c), q)
    ensures Fires(s, Step(Fire(e, next), ans), q)
  {
    var op := NotifiedBy(Dispatched(s, e, s.events[e].what.pid, next), CaughtBy(s, e, next).value).value;
    RequestDispatched(s, e, next, ans, op);
    Unanswered(s, op);
    assert s.tracees[q].cont == InSelect(op);
  }

  lemma RequestDispatched(s: State, e: EvId, next: Call, ans: Answer, op: OpId)
    requires Inv(s) && IsNext(s.events, e) && CaughtBy(s, e, next).Some?
    requires OwnCall(s.net, s.events[e].what.pid, CaughtBy(s, e, next).value)
    requires NotifiedBy(Dispatched(s, e, s.events[e].what.pid, next), CaughtBy(s, e, next).value) == Some(op)
    ensures op < |s.ops| && Answers(s, Next(s, Step(Fire(e, next), ans)), op)
  {
    var p, c := s.events[e].what.pid, CaughtBy(s, e, next).value;
    DispatchedActive(s, e, p, next);
    NotifiedAnswers(Dispatched(s, e, p, next), p, c, ans, op);
    EE.DispatchForm(s, e, next, ans);
  }

  /** The select that a request notifies is answered when the request has been served. */
  lemma NotifiedAnswers(d: State, p: Pid, c: Call, ans: Answer, op: OpId)
    requires Active(d, {p}) && OwnCall(d.net, p, c) && NotifiedBy(d, c) == Some(op)
    ensures var r := Handle(d, p, c, ans);
            op < |d.ops| && Answers(d, ProcessStatusCode(r.s, r.code, p), op)
  {
    RequestAnswers(d, p, c, ans, op);
    StatusFrame(Handle(d, p, c, ans), p);
  }

  lemma EventThread(s: State, e: EvId, next: Call, ans: Answer, q: Pid)
    requires Inv(s) && IsNext(s.events, e) && CaughtBy(s, e, next).None? && q in s.tracees
    ensures Still(s, Next(s, Step(Fire(e, next), ans)), q) || Fires(s, Step(Fire(e, next), ans), q)
  {
    assert EventOk(s.tracees, s.ops, e, s.events[e].what);
    if s.events[e].what.SelectTimeout? {
      TimeoutThread(s, e, next, ans, q);
    } else if s.events[e].what.SleepDone? {
      var s1 := s.(now := s.events[e].at, events := s.events - {e});
      WakeFrame(s1, s1, s.events[e].what.pid, Value(0), ans.stray);
    }
  }

  lemma TimeoutThread(s: State, e: EvId, next: Call, ans: Answer, q: Pid)
    requires Inv(s) && IsNext(s.events, e) && s.events[e].what.SelectTimeout? && q in s.tracees
    ensures Still(s, Next(s, Step(Fire(e, next), ans)), q) || Fires(s, Step(Fire(e, next), ans), q)
  {
    var op := s.events[e].what.op;
    assert EventOk(s.tracees, s.ops, e, s.events[e].what);
    TimeoutStep(s, e, next, ans, op);
    Unanswered(s, op);
    FinishFrame(s.(now := s.events[e].at, events := s.events - {e}), op, s.ops[op].pid, SelectTimedOut, ans.stray);
  }

  lemma CallbackThread(s: State, step: Step, q: Pid)
    requires Inv(s) && Enabled(s, step) && Disciplined(s, step) && !step.act.Fire? && !Next(s, step).halted &&
             q in s.tracees
    ensures Still(s, Next(s, step), q) || Fires(s, step, q)
  {
    var sid, s1 := step.act.sid, s.(now := step.act.at);
    var k := s.net.socks[sid];
    assert SlotsOk(s.tracees, s.ops, s.net.fds, sid, k);
    if s.tracees[q].cont.InSelect? {
      var op := s.tracees[q].cont.op;
      assert ContOk(s.events, s.ops, s.net, q, s.tracees[q]);
      OpStep(s, step, op);
    } else {
      CallbackWho(s, step, q);
    }
  }

  /** A thread that a callback names is the one whose closure is in the slot. */
  lemma DataWho(s: State, step: Step, q: Pid)
    requires Inv(s) && Enabled(s, step) && Disciplined(s, step) && !Next(s, step).halted
    requires q in s.tracees && !s.tracees[q].cont.InSelect? && step.act.Data?
    ensures Still(s, Next(s, step), q) || Fires(s, step, q)
  {
    var sid, r := step.act.sid, s.net.socks[step.act.sid].recv;
    assert SlotsOk(s.tracees, s.ops, s.net.fds, sid, s.net.socks[sid]);
    if r.SelectRecv? && StillWaits(s.ops, r.op) {
      Unanswered(s, r.op);
    }
    DataFrame(s.(now := step.act.at), sid, step.act.rx, step.ans);
  }

  lemma SpaceWho(s: State, step: Step, q: Pid)
    requires Inv(s) && Enabled(s, step) && q in s.tracees && !s.tracees[q].cont.InSelect? && step.act.Space?
    ensures Still(s, Next(s, step), q)
  {
    var sid, c := step.act.sid, s.net.socks[step.act.sid].send;
    assert SlotsOk(s.tracees, s.ops, s.net.fds, sid, s.net.socks[sid]);
    if c.SelectSend? && StillWaits(s.ops, c.op) {
      Unanswered(s, c.op);
    }
    SpaceFrame(s.(now := step.act.at), sid, step.act.tx, step.ans);
  }

  lemma ConnectionWho(s: State, step: Step, q: Pid)
    requires Inv(s) && Enabled(s, step) && Disciplined(s, step) && !Next(s, step).halted
    requires q in s.tracees && !s.tracees[q].cont.InSelect? && step.act.Connection?
    ensures Still(s, Next(s, step), q) || Fires(s, step, q)
  {
    var sid, a := step.act.sid, s.net.socks[step.act.sid].accept;
    assert SlotsOk(s.tracees, s.ops, s.net.fds, sid, s.net.socks[sid]);
    if a.SelectAccept? && StillWaits(s.ops, a.op) {
      Unanswered(s, a.op);
    }
    ConnectionFrame(s.(now := step.act.at), sid, step.ans);
  }

  lemma ConnectWho(s: State, step: Step, q: Pid)
    requires Inv(s) && Enabled(s, step) && q in s.tracees && step.act.ConnectEnds?
    ensures Still(s, Next(s, step), q) || Fires(s, step, q)
  {
    var sid, c := step.act.sid, s.net.socks[step.act.sid].connect;
    assert SlotsOk(s.tracees, s.ops, s.net.fds, sid, s.net.socks[sid]);
    if c.pid == q {
      assert s.tracees[q].cont == InConnect(c.fd);
    } else {
      ConnectFrame(s.(now := step.act.at), sid, step.act.ok, step.ans);
    }
  }

  /** A callback that is not a select's concerns the thread it names. */
  lemma CallbackWho(s: State, step: Step, q: Pid)
    requires Inv(s) && Enabled(s, step) && Disciplined(s, step) && !Next(s, step).halted
    requires q in s.tracees && !s.tracees[q].cont.InSelect? && !step.act.Fire?
    ensures Still(s, Next(s, step), q) || Fires(s, step, q)
  {
    if step.act.Data? {
      DataWho(s, step, q);
    } else if step.act.Space? {
      SpaceWho(s, step, q);
    } else if step.act.Connection? {
      ConnectionWho(s, step, q);
    } else {
      ConnectWho(s, step, q);
    }
  }

  /** Every step moves only the thread whose own source of resumption it is, and so no thread twice. */
  lemma OnlyItsSourceMoves(s: State, step: Step, q: Pid)
    requires Inv(s) && Enabled(s, step) && Disciplined(s, step) && !Next(s, step).halted && q in s.tracees
    ensures Still(s, Next(s, step), q) || Fires(s, step, q)
  {
    match step.act
    case Fire(e, next) =>
      if CaughtBy(s, e, next).Some? {
        DispatchThread(s, e, next, step.ans, q);
      } else {
        EventThread(s, e, next, step.ans, q);
      }
    case _ => CallbackThread(s, step, q);
  }

  // ---- Sleeping --------------------------------------------------------------------------------------

  /** Thread `q` is not dispatched before `due`. */
  ghost predicate NotBefore(s: State, q: Pid, due: nat) {
    s.now >= due ||
    (q in s.tracees && s.tracees[q].cont.InSleep? && s.tracees[q].cont.ev in s.events &&
     s.events[s.tracees[q].cont.ev].at >= due)
  }

  lemma SleepStep(s: State, step: Step, q: Pid, due: nat)
    requires Inv(s) && Enabled(s, step) && Disciplined(s, step) && !Next(s, step).halted && NotBefore(s, q, due)
    ensures NotBefore(Next(s, step), q, due)
  {
    StepOld(s, step);
    if s.now < due {
      var t, e := Next(s, step), s.tracees[q].cont.ev;
      OnlyItsSourceMoves(s, step, q);
      if Still(s, t, q) {
        StepKeeps(s, step);
        assert ContOk(t.events, t.ops, t.net, q, t.tracees[q]);
      } else {
        assert ContOk(s.events, s.ops, s.net, q, s.tracees[q]);
        FiredAt(s, step);
      }
    }
  }

  lemma FiredAt(s: State, step: Step)
    requires step.act.Fire? && step.act.e in s.events && s.events[step.act.e].what.SleepDone?
    ensures Next(s, step).now == s.events[step.act.e].at
  {
  }

  lemma {:induction false} SleepRun(s: State, steps: seq<Step>, q: Pid, due: nat)
    requires Inv(s) && Sound(s, steps) && !RunAll(s, steps).halted && NotBefore(s, q, due)
    ensures NotBefore(RunAll(s, steps), q, due)
    decreases steps
  {
    if steps != [] {
      StepKeeps(s, steps[0]);
      SleepStep(s, steps[0], q, due);
      SleepRun(Next(s, steps[0]), steps[1..], q, due);
    }
  }

  lemma DueWhenDispatched(s: State, e: EvId, p: Pid, due: nat)
    requires Inv(s) && NotBefore(s, p, due) && e in s.events && s.events[e].what == Before(p)
    ensures s.events[e].at >= due
  {
    assert EventOk(s.tracees, s.ops, e, s.events[e].what);
  }

  /** Whoever has called nanosleep makes no further call, and so reads no clock, before the request has elapsed. */
  lemma SleepsLongEnough(s: State, e: EvId, p: Pid, sec: nat, nsec: nat, ans: Answer, steps: seq<Step>, later: EvId)
    requires Inv(s) && IsNext(s.events, e) && s.events[e].what == Before(p)
    requires CaughtBy(s, e, NanoSleep(sec, nsec)) == Some(NanoSleep(sec, nsec))
    requires var t := Next(s, Step(Fire(e, NanoSleep(sec, nsec)), ans));
             Sound(t, steps) && !RunAll(t, steps).halted &&
             later in RunAll(t, steps).events && RunAll(t, steps).events[later].what == Before(p)
    ensures var t := Next(s, Step(Fire(e, NanoSleep(sec, nsec)), ans));
            RunAll(t, steps).events[later].at >= s.events[e].at + sec * 1000000000 + nsec
  {
    var t, due := Next(s, Step(Fire(e, NanoSleep(sec, nsec)), ans)), Later(s.events[e].at, sec, nsec);
    SleepStarts(s, e, p, sec, nsec, ans);
    SleepRun(t, steps, p, due);
    RunKeeps(t, steps);
    DueWhenDispatched(RunAll(t, steps), later, p, due);
  }

  lemma SleepStarts(s: State, e: EvId, p: Pid, sec: nat, nsec: nat, ans: Answer)
    requires Inv(s) && IsNext(s.events, e) && s.events[e].what == Before(p)
    requires CaughtBy(s, e, NanoSleep(sec, nsec)) == Some(NanoSleep(sec, nsec))
    ensures var t := Next(s, Step(Fire(e, NanoSleep(sec, nsec)), ans));
            NotBefore(t, p, Later(s.events[e].at, sec, nsec)) && !t.halted && Inv(t)
  {
    SleepAllowed(s, e, sec, nsec, ans);
    StepKeeps(s, Step(Fire(e, NanoSleep(sec, nsec)), ans));
    SleepForm(s, e, p, sec, nsec, ans);
  }

  lemma SleepAllowed(s: State, e: EvId, sec: nat, nsec: nat, ans: Answer)
    requires IsNext(s.events, e) && CaughtBy(s, e, NanoSleep(sec, nsec)) == Some(NanoSleep(sec, nsec))
    ensures var step := Step(Fire(e, NanoSleep(sec, nsec)), ans); Enabled(s, step) && Disciplined(s, step)
  {
  }

  lemma SleepForm(s: State, e: EvId, p: Pid, sec: nat, nsec: nat, ans: Answer)
    requires e in s.events && s.events[e].what == Before(p) &&
             CaughtBy(s, e, NanoSleep(sec, nsec)) == Some(NanoSleep(sec, nsec))
    ensures var t := Next(s, Step(Fire(e, NanoSleep(sec, nsec)), ans));
            NotBefore(t, p, Later(s.events[e].at, sec, nsec)) && (s.halted || !t.halted)
  {
    EE.DispatchForm(s, e, NanoSleep(sec, nsec), ans);
  }

  // ---- Reading the clock takes two dispatches ---------------------------------------------------------

  /** Thread `q` stands at `stop` and event `ev` will dispatch it at time `at`. */
  ghost predicate DueAt(s: State, q: Pid, stop: Stop, ev: EvId, at: nat) {
    ev in s.events && s.events[ev] == Event(at, Before(q)) && q in s.tracees &&
    s.tracees[q] == Tracee(stop, Resumes(ev))
  }

  lemma DueStep(s: State, step: Step, q: Pid, stop: Stop, ev: EvId, at: nat)
    requires Inv(s) && Enabled(s, step) && Disciplined(s, step) && !Next(s, step).halted && DueAt(s, q, stop, ev, at)
    ensures DueAt(Next(s, step), q, stop, ev, at) || (step.act.Fire? && step.act.e == ev)
  {
    OnlyItsSourceMoves(s, step, q);
    StepKeeps(s, step);
    StepOld(s, step);
    var t := Next(s, step);
    if Still(s, t, q) {
      assert ContOk(t.events, t.ops, t.net, q, t.tracees[q]);
    }
  }

  /** The run does not get to event `ev`. */
  ghost predicate Avoids(steps: seq<Step>, ev: EvId) {
    forall i :: 0 <= i < |steps| && steps[i].act.Fire? ==> steps[i].act.e != ev
  }

  lemma {:induction false} DueRun(s: State, steps: seq<Step>, q: Pid, stop: Stop, ev: EvId, at: nat)
    requires Inv(s) && Sound(s, steps) && Avoids(steps, ev) && !RunAll(s, steps).halted && DueAt(s, q, stop, ev, at)
    ensures Inv(RunAll(s, steps)) && DueAt(RunAll(s, steps), q, stop, ev, at)
    decreases steps
  {
    if steps != [] {
      StepKeeps(s, steps[0]);
      DueStep(s, steps[0], q, stop, ev, at);
      DueRun(Next(s, steps[0]), steps[1..], q, stop, ev, at);
    }
  }

  /** When the thread that a call is dispatched for will be dispatched again. */
  function SecondDispatchAt(s: State, e: EvId, p: Pid, c: Call): nat
    requires e in s.events && p in s.tracees
  {
    NextDispatch(Dispatched(s, e, p, c))
  }

  /** The first dispatch of a clock call stores nothing: the thread stays at the entry and is scheduled. */
  lemma ClockStarts(s: State, e: EvId, p: Pid, c: Call, ans: Answer)
    requires Inv(s) && IsNext(s.events, e) && s.events[e].what == Before(p) && p in s.tracees
    requires s.tracees[p].stop.AtExit? && TwoDispatches(c)
    ensures var t := Next(s, Step(Fire(e, c), ans));
            !t.halted && Inv(t) && DueAt(t, p, AtEntry(c), s.nextEvent, SecondDispatchAt(s, e, p, c))
  {
    StepKeeps(s, Step(Fire(e, c), ans));
    ClockScheduled(s, e, p, c, ans);
  }

  lemma ClockScheduled(s: State, e: EvId, p: Pid, c: Call, ans: Answer)
    requires !s.halted && e in s.events && s.events[e].what == Before(p) && p in s.tracees
    requires s.tracees[p].stop.AtExit? && TwoDispatches(c)
    ensures var t := Next(s, Step(Fire(e, c), ans));
            !t.halted && DueAt(t, p, AtEntry(c), s.nextEvent, SecondDispatchAt(s, e, p, c))
  {
    EE.DispatchForm(s, e, c, ans);
  }

  /** The second finds it at the exit of the same call and stores what the clock says then. */
  lemma ClockEnds(u: State, p: Pid, c: Call, ev: EvId, at: nat, next: Call, ans: Answer)
    requires TwoDispatches(c) && DueAt(u, p, AtEntry(c), ev, at)
    ensures var t := Next(u, Step(Fire(ev, next), ans));
            p in t.tracees && t.tracees[p].stop == AtExit(if c.ClockGetTime? then NanoClock(at) else Clock(0, 10))
  {
    EE.DispatchForm(u, ev, next, ans);
  }

  /**
   * A thread that reads the clock is dispatched for that call exactly twice, whatever the others do in between: it
   * gets the time of the second dispatch, which lies the processing time and the poll-loop delay after the first.
   */
  lemma ClockTellsSecondDispatch(s: State, e: EvId, p: Pid, ans: Answer, steps: seq<Step>, next: Call, ans': Answer)
    requires Inv(s) && IsNext(s.events, e) && s.events[e].what == Before(p) && p in s.tracees &&
             s.tracees[p].stop.AtExit?
    requires var t := Next(s, Step(Fire(e, ClockGetTime(false)), ans));
             Sound(t, steps) && !RunAll(t, steps).halted && Avoids(steps, s.nextEvent)
    ensures var u := RunAll(Next(s, Step(Fire(e, ClockGetTime(false)), ans)), steps);
            var at := SecondDispatchAt(s, e, p, ClockGetTime(false));
            var v := Next(u, Step(Fire(s.nextEvent, next), ans'));
            at >= s.events[e].at + s.app.processing && p in u.tracees &&
            u.tracees[p].stop == AtEntry(ClockGetTime(false)) &&
            p in v.tracees && v.tracees[p].stop == AtExit(NanoClock(at)) && v.now == at
  {
    var c := ClockGetTime(false);
    var t, at := Next(s, Step(Fire(e, c), ans)), SecondDispatchAt(s, e, p, c);
    ClockStarts(s, e, p, c, ans);
    DueRun(t, steps, p, AtEntry(c), s.nextEvent, at);
    ClockEnds(RunAll(t, steps), p, c, s.nextEvent, at, next, ans');
    DispatchTime(RunAll(t, steps), s.nextEvent, next, ans');
  }

  lemma DispatchTime(u: State, ev: EvId, next: Call, ans: Answer)
    requires CaughtBy(u, ev, next).Some? && TwoDispatches(CaughtBy(u, ev, next).value)
    ensures Next(u, Step(Fire(ev, next), ans)).now == u.events[ev].at
  {
    var p := u.events[ev].what.pid;
    var d, c := Dispatched(u, ev, p, next), Caught(u, p, next);
    EE.DispatchForm(u, ev, next, ans);
    CallSettled(d, p, c, ans);
    StatusFrame(Handle(d, p, c, ans), p);
  }
}
