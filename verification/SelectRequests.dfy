/**
 * What a thread that waits in select has asked for is what is waited for: from the call to its answer, whatever other
 * threads do, every requested descriptor that was open at the call holds the closure, and the timeout is queued.
 */
module SelectRequests {
  import opened Base
  import opened NetlinkWire
  import opened Sim
  import opened SimInv
  import opened SimCallbacks
  import opened SimRun
  import opened SimFrame
  import opened SoloRun
  import opened Descriptors
  import opened Readiness
  import opened Resumption
  import opened SelectWakeups
  import opened SimServing
  import VT = VirtualTime
  import EE = EndToEnd
  import NL = Netlink

  // ---- From the call on ---------------------------------------------------------------------------

  /** The record of a select that has not been answered in the end has not changed on the way. */
  lemma {:induction false} RecordKept(s: State, steps: seq<Step>, op: OpId)
    requires Inv(s) && Sound(s, steps) && !RunAll(s, steps).halted && op < |s.ops|
    ensures var u := RunAll(s, steps);
            op < |u.ops| && (!u.ops[op].handled ==>
                               !s.ops[op].handled && u.ops[op] == s.ops[op] && s.ops[op].pid in s.tracees &&
                               s.ops[op].pid in u.tracees && u.tracees[s.ops[op].pid] == s.tracees[s.ops[op].pid])
    decreases steps
  {
    if steps == [] {
      if !s.ops[op].handled {
        Unanswered(s, op);
      }
    } else {
      var t := Next(s, steps[0]);
      StepKeeps(s, steps[0]);
      OpStep(s, steps[0], op);
      RecordKept(t, steps[1..], op);
      if !s.ops[op].handled {
        Unanswered(s, op);
      }
    }
  }

  /** An event that is still in the queue is as it was scheduled. */
  lemma {:induction false} EventKept(s: State, steps: seq<Step>, e: EvId)
    requires Inv(s) && Sound(s, steps) && !RunAll(s, steps).halted && e < s.nextEvent
    ensures e in RunAll(s, steps).events ==> e in s.events && RunAll(s, steps).events[e] == s.events[e]
    decreases steps
  {
    if steps != [] {
      StepKeeps(s, steps[0]);
      VT.StepOld(s, steps[0]);
      EventKept(Next(s, steps[0]), steps[1..], e);
    }
  }

  /** When the timeout of a call is due, in nanoseconds. */
  function DueAfter(now: nat, t: Timeval): nat {
    now + t.sec * 1000000000 + t.usec * 1000
  }

  /** Thread `p`, dispatched by event `e` for select, is left waiting. */
  ghost predicate WaitsIn(s: State, e: EvId, p: Pid, c: Call, ans: Answer) {
    var step := Step(Fire(e, c), ans);
    c.Select? && Inv(s) && Enabled(s, step) && Disciplined(s, step) && s.events[e].what == Before(p) &&
    CaughtBy(s, e, c) == Some(c) && s.tracees[p].stop.AtExit? &&
    !Next(s, step).halted && p in Next(s, step).tracees && Next(s, step).tracees[p].stop == AtEntry(c)
  }

  lemma SelectWaits(s: State, e: EvId, p: Pid, c: Call, ans: Answer)
    requires WaitsIn(s, e, p, c, ans)
    ensures var t, op := Next(s, Step(Fire(e, c), ans)), |s.ops|;
            Inv(t) && op < |t.ops| && t.ops[op] == NewSelect(s, p, c.rset, c.wset, c.timeout) &&
            t.net.fds == s.net.fds &&
            (c.timeout.Some? ==> s.nextEvent < t.nextEvent && s.nextEvent in t.events &&
                                 t.events[s.nextEvent] ==
                                 Event(DueAfter(s.events[e].at, c.timeout.value), SelectTimeout(op)))
  {
    var d := Dispatched(s, e, p, c);
    StepKeeps(s, Step(Fire(e, c), ans));
    EE.DispatchForm(s, e, c, ans);
    BlockedForm(s, e, p, c, ans);
    assert d.now == s.events[e].at && d.nextEvent == s.nextEvent;
    RecordMade(d, p, c);
  }

  /** What a select that has to wait records. */
  lemma RecordMade(d: State, p: Pid, c: Call)
    requires c.Select?
    ensures var t, op := BlockInSelect(d, p, c.rset, c.wset, c.timeout), |d.ops|;
            op < |t.ops| && t.ops[op] == NewSelect(d, p, c.rset, c.wset, c.timeout) && t.net.fds == d.net.fds &&
            (c.timeout.Some? ==> d.nextEvent < t.nextEvent && d.nextEvent in t.events &&
                                 t.events[d.nextEvent] == Event(DueAfter(d.now, c.timeout.value), SelectTimeout(op)))
  {
  }

  lemma BlockedForm(s: State, e: EvId, p: Pid, c: Call, ans: Answer)
    requires c.Select? && e in s.events && p in s.tracees && s.tracees[p].stop.AtExit?
    requires var d := Dispatched(s, e, p, c);
             var r := Handle(d, p, c, ans);
             r.code != Error && p in ProcessStatusCode(r.s, r.code, p).tracees &&
             ProcessStatusCode(r.s, r.code, p).tracees[p].stop == AtEntry(c)
    ensures var d := Dispatched(s, e, p, c);
            Handle(d, p, c, ans) == Res(BlockInSelect(d, p, c.rset, c.wset, c.timeout), Delayed)
  {
  }

  /**
   * From the call on, through any sound run, until the select is answered: its thread stands at the entry of the call;
   * every requested descriptor that was open at the call, and there is one, is not ready and holds its closure; its
   * timeout, if the call gives one, is in the queue for the time it is due.
   */
  lemma RequestIsWatched(s: State, e: EvId, p: Pid, c: Call, ans: Answer, steps: seq<Step>)
    requires WaitsIn(s, e, p, c, ans)
    requires var t := Next(s, Step(Fire(e, c), ans));
             Sound(t, steps) && !RunAll(t, steps).halted &&
             (|s.ops| < |RunAll(t, steps).ops| ==> !RunAll(t, steps).ops[|s.ops|].handled)
    ensures var u, op := RunAll(Next(s, Step(Fire(e, c), ans)), steps), |s.ops|;
            Inv(u) && Waits(u, p, op) && u.tracees[p].stop == AtEntry(c) &&
            u.ops[op] == NewSelect(s, p, c.rset, c.wset, c.timeout) &&
            WatchR(s.net.fds, c.rset) + WatchW(s.net.fds, c.wset) != {} &&
            (forall f :: f in WatchR(s.net.fds, c.rset) ==> WatchesR(u.net, op, f)) &&
            (forall f :: f in WatchW(s.net.fds, c.wset) ==> WatchesW(u.net, op, f)) &&
            (c.timeout.Some? ==> s.nextEvent in u.events &&
                                 u.events[s.nextEvent] ==
                                 Event(DueAfter(s.events[e].at, c.timeout.value), SelectTimeout(op)))
  {
    var t, op := Next(s, Step(Fire(e, c), ans)), |s.ops|;
    var u := RunAll(t, steps);
    SelectWaits(s, e, p, c, ans);
    RecordKept(t, steps, op);
    RunKeeps(t, steps);
    Unanswered(u, op);
    if c.timeout.Some? {
      EventKept(t, steps, s.nextEvent);
    }
  }

  /** Data or a connection for descriptor `f`, or send space if `write`. */
  ghost predicate HappensOn(n: Net, step: Step, f: Fd, write: bool) {
    match step.act
    case Data(_, sid, _) => !write && IsFdOf(n.fds.sockets, f, sid)
    case Connection(_, sid) => !write && IsFdOf(n.fds.sockets, f, sid)
    case Space(_, sid, _) => write && IsFdOf(n.fds.sockets, f, sid)
    case _ => false
  }

  /** The sets that report `f` alone, those not passed left out. */
  function Alone(c: Call, f: Fd, write: bool): Result
    requires c.Select?
  {
    Selected(1, if c.rset.Some? then Some(if write then {} else {f}) else None,
             if c.wset.Some? then Some(if write then {f} else {}) else None)
  }

  /** Whatever happens first on a requested descriptor, or the timeout, answers the call with just that. */
  lemma RequestIsHeard(s: State, e: EvId, p: Pid, c: Call, ans: Answer, steps: seq<Step>, step: Step, f: Fd,
                       write: bool)
    requires WaitsIn(s, e, p, c, ans)
    requires var t := Next(s, Step(Fire(e, c), ans));
             Sound(t, steps) && !RunAll(t, steps).halted &&
             (|s.ops| < |RunAll(t, steps).ops| ==> !RunAll(t, steps).ops[|s.ops|].handled)
    requires var u := RunAll(Next(s, Step(Fire(e, c), ans)), steps);
             Enabled(u, step) && Disciplined(u, step) && !Next(u, step).halted &&
             ((HappensOn(u.net, step, f, write) &&
               f in if write then WatchW(s.net.fds, c.wset) else WatchR(s.net.fds, c.rset)) ||
              (c.timeout.Some? && step.act.Fire? && step.act.e == s.nextEvent))
    ensures var v := Next(RunAll(Next(s, Step(Fire(e, c), ans)), steps), step);
            p in v.tracees && Scheduled(v, p) &&
            v.tracees[p].stop == AtExit(if step.act.Fire? then SelectTimedOut else Alone(c, f, write))
  {
    var u, op := RunAll(Next(s, Step(Fire(e, c), ans)), steps), |s.ops|;
    RequestIsWatched(s, e, p, c, ans, steps);
    RecordHeard(u, step, op, f, write);
    StepKeeps(u, step);
    ScheduledIffParked(Next(u, step), p);
  }

  /** The same, of the record. */
  lemma RecordHeard(u: State, step: Step, op: OpId, f: Fd, write: bool)
    requires Inv(u) && Enabled(u, step) && Disciplined(u, step) && !Next(u, step).halted && op < |u.ops| &&
             !u.ops[op].handled
    requires (HappensOn(u.net, step, f, write) && f in if write then u.ops[op].watchW else u.ops[op].watchR) ||
             (step.act.Fire? && u.ops[op].timeout == Some(step.act.e))
    ensures Answers(u, Next(u, step), op)
    ensures Next(u, step).tracees[u.ops[op].pid].stop ==
            AtExit(if step.act.Fire? then SelectTimedOut else if write then OneWrite(u.ops[op], f)
                   else OneRead(u.ops[op], f))
  {
    OwedOf(u, step, op, f, write);
    FirstEventAnswers(u, step, op);
  }

  lemma OwedOf(u: State, step: Step, op: OpId, f: Fd, write: bool)
    requires FdOk(u.net) && op < |u.ops|
    requires (HappensOn(u.net, step, f, write) && f in if write then u.ops[op].watchW else u.ops[op].watchR) ||
             (step.act.Fire? && u.ops[op].timeout == Some(step.act.e))
    ensures Owed(u, step, op) == Some(if step.act.Fire? then SelectTimedOut
                                      else if write then OneWrite(u.ops[op], f) else OneRead(u.ops[op], f))
  {
    if !step.act.Fire? {
      OneDescriptor(u.net, step.act.sid, f);
    }
  }

  lemma OneDescriptor(n: Net, sid: SockId, f: Fd)
    requires FdOk(n) && IsFdOf(n.fds.sockets, f, sid)
    ensures forall g :: IsFdOf(n.fds.sockets, g, sid) ==> g == f
  {
  }

  // ---- With one thread ------------------------------------------------------------------------------

  /** If the thread stands at the entry of select, its record covers what is requested and open now. */
  ghost predicate Covered(s: State, p: Pid) {
    p in s.tracees && s.tracees[p].stop.AtEntry? && s.tracees[p].stop.call.Select? ==>
      s.tracees[p].cont.InSelect? &&
      var c, op := s.tracees[p].stop.call, s.tracees[p].cont.op;
      op < |s.ops| && s.ops[op].watchR == WatchR(s.net.fds, c.rset) && s.ops[op].watchW == WatchW(s.net.fds, c.wset)
  }

  ghost predicate SameOpen(t: FdTable, u: FdTable) {
    u.sockets == t.sockets && u.netlinks == t.netlinks
  }

  lemma SameWatched(t: FdTable, u: FdTable, rset: Option<set<Fd>>, wset: Option<set<Fd>>)
    requires SameOpen(t, u)
    ensures WatchR(u, rset) == WatchR(t, rset) && WatchW(u, wset) == WatchW(t, wset)
  {
  }

  /** While the only thread waits in select no descriptor is opened or closed. */
  lemma WaitingOpensNothing(s: State, p: Pid, step: Step)
    requires Inv(s) && Solo(s, p) && Enabled(s, step) && SoloAllowed(s, step)
    requires p in s.tracees && s.tracees[p].cont.InSelect?
    ensures SameOpen(s.net.fds, Next(s, step).net.fds)
  {
    match step.act
    case Fire(e, next) =>
      assert EventOk(s.tracees, s.ops, e, s.events[e].what);
      EventNet(s, e, next, step.ans);
    case Data(at, sid, rx) => DataFds(s.(now := at), sid, rx, step.ans);
    case Space(at, sid, tx) => SpaceFds(s.(now := at), sid, tx, step.ans);
    case Connection(at, sid) => ConnectionFds(s.(now := at), sid, step.ans);
    case ConnectEnds(at, sid, ok) => ConnectEndFds(s.(now := at), sid, ok, step.ans);
  }

  lemma CoveredWhileWaiting(s: State, p: Pid, step: Step)
    requires Inv(s) && Solo(s, p) && Covered(s, p) && Enabled(s, step) && SoloAllowed(s, step) && !Next(s, step).halted
    requires p in s.tracees && s.tracees[p].stop.AtEntry? && s.tracees[p].stop.call.Select?
    ensures Covered(Next(s, step), p)
  {
    var t, c, op := Next(s, step), s.tracees[p].stop.call, s.tracees[p].cont.op;
    assert ContOk(s.events, s.ops, s.net, p, s.tracees[p]);
    WaitingOpensNothing(s, p, step);
    SameWatched(s.net.fds, t.net.fds, c.rset, c.wset);
    SoloDiscipline(s, p, step);
    OpStep(s, step, op);
  }

  /** Only select makes records. */
  lemma NoNewRecord(s: State, p: Pid, c: Call, ans: Answer)
    requires !c.Select?
    ensures |Handle(s, p, c, ans).s.ops| == |s.ops|
  {
    if c.SendTo? || c.SendMsg? || c.RecvMsg? {
      NetlinkMakesNone(s, p, c, ans);
    } else if c.Read? || c.RecvFrom? || c.Write? {
      TransferMakesNone(s, p, c, ans);
    } else if c.Connect? {
      ConnectMakesNone(s, p, c, ans);
    } else if c.Accept? || c.Listen? {
      ListenerMakesNone(s, p, c, ans);
    }
  }

  lemma NetlinkMakesNone(s: State, p: Pid, c: Call, ans: Answer)
    requires c.SendTo? || c.SendMsg? || c.RecvMsg?
    ensures |Handle(s, p, c, ans).s.ops| == |s.ops|
  {
    match c
    case SendTo(fd, buf, flags, _) =>
      if RequestOf(s, c).Some? {
        RequestMakesNone(s, fd, WalkMsgs(buf, s.app.devices), LeftoverValue(buf), ans);
      }
    case SendMsg(fd, iov) =>
      if RequestOf(s, c).Some? {
        RequestMakesNone(s, fd, WalkBuffers(iov, s.app.devices), NL.TotalLen(iov), ans);
      }
    case RecvMsg(_, _) =>
  }

  lemma RequestMakesNone(s: State, fd: Fd, walked: Outcome<seq<Effect>>, returned: int, ans: Answer)
    requires KnownNl(s.net, fd)
    ensures |NetlinkSend(s, fd, walked, returned, ans).s.ops| == |s.ops|
  {
    if Notified(s, fd, walked).Some? {
      var r := s.net.nls[s.net.fds.netlinks[fd]].recv;
      var s1 := Sent(s, s.net.fds.netlinks[fd], walked.value, r);
      FinishFrame(s1, r.op, s.ops[r.op].pid, OneRead(s.ops[r.op], r.fd), ans.stray);
    }
  }

  lemma ConnectMakesNone(s: State, p: Pid, c: Call, ans: Answer)
    requires c.Connect?
    ensures |Handle(s, p, c, ans).s.ops| == |s.ops|
  {
  }

  lemma ListenerMakesNone(s: State, p: Pid, c: Call, ans: Answer)
    requires c.Accept? || c.Listen?
    ensures |Handle(s, p, c, ans).s.ops| == |s.ops|
  {
  }

  lemma TransferMakesNone(s: State, p: Pid, c: Call, ans: Answer)
    requires c.Read? || c.RecvFrom? || c.Write?
    ensures |Handle(s, p, c, ans).s.ops| == |s.ops|
  {
  }

  /** A dispatch that leaves the thread at the entry of select has just made the record. */
  lemma CoveredByDispatch(s: State, p: Pid, e: EvId, next: Call, ans: Answer)
    requires Inv(s) && Solo(s, p) && Enabled(s, Step(Fire(e, next), ans)) && SoloAllowed(s, Step(Fire(e, next), ans))
    requires CaughtBy(s, e, next).Some? && !Next(s, Step(Fire(e, next), ans)).halted
    ensures Covered(Next(s, Step(Fire(e, next), ans)), p)
  {
    var step, t := Step(Fire(e, next), ans), Next(s, Step(Fire(e, next), ans));
    SoloDiscipline(s, p, step);
    StepKeeps(s, step);
    assert EventOk(s.tracees, s.ops, e, s.events[e].what);
    if p in t.tracees && t.tracees[p].stop.AtEntry? && t.tracees[p].stop.call.Select? {
      RecordOf(t, p);
      NewRecord(s, p, e, next, ans, t.tracees[p].cont.op);
      JustBlocked(s, p, e, next, ans);
      CoveredFresh(s, p, e, next, ans);
    }
  }

  lemma CoveredFresh(s: State, p: Pid, e: EvId, c: Call, ans: Answer)
    requires WaitsIn(s, e, p, c, ans)
    ensures Covered(Next(s, Step(Fire(e, c), ans)), p)
  {
    var t := Next(s, Step(Fire(e, c), ans));
    SelectWaits(s, e, p, c, ans);
    Unanswered(t, |s.ops|);
    SameWatched(s.net.fds, t.net.fds, c.rset, c.wset);
  }

  /** The record the thread waits by was not there, or had been answered. */
  lemma NewRecord(s: State, p: Pid, e: EvId, next: Call, ans: Answer, op: OpId)
    requires Inv(s) && Enabled(s, Step(Fire(e, next), ans)) && Disciplined(s, Step(Fire(e, next), ans))
    requires CaughtBy(s, e, next).Some? && s.events[e].what == Before(p) && !Next(s, Step(Fire(e, next), ans)).halted
    requires var t := Next(s, Step(Fire(e, next), ans)); op < |t.ops| && !t.ops[op].handled && t.ops[op].pid == p
    ensures CaughtBy(s, e, next).value.Select?
  {
    var c, d := Caught(s, p, next), Dispatched(s, e, p, next);
    assert EventOk(s.tracees, s.ops, e, s.events[e].what);
    if !c.Select? {
      NoNewRecord(d, p, c, ans);
      StatusFrame(Handle(d, p, c, ans), p);
      EE.DispatchForm(s, e, next, ans);
      SameOps(Handle(d, p, c, ans), p);
      OpStep(s, Step(Fire(e, next), ans), op);
      Unanswered(s, op);
      assert false;
    }
  }

  lemma SameOps(r: Res, p: Pid)
    ensures ProcessStatusCode(r.s, r.code, p).ops == r.s.ops
  {
  }

  /** The thread has come to this call from the exit of another. */
  lemma JustBlocked(s: State, p: Pid, e: EvId, next: Call, ans: Answer)
    requires Inv(s) && e in s.events && s.events[e].what == Before(p)
    requires CaughtBy(s, e, next).Some? && CaughtBy(s, e, next).value.Select? &&
             !Next(s, Step(Fire(e, next), ans)).halted
    requires var t := Next(s, Step(Fire(e, next), ans)); p in t.tracees && t.tracees[p].stop.AtEntry?
    ensures s.tracees[p].stop.AtExit? && CaughtBy(s, e, next).value == next &&
            Next(s, Step(Fire(e, next), ans)).tracees[p].stop == AtEntry(next)
  {
    EE.DispatchForm(s, e, next, ans);
    if s.tracees[p].stop.AtEntry? {
      ParkedInClock(s, e, p);
      assert false;
    }
    StaysAtEntry(Dispatched(s, e, p, next), p, next, ans);
  }

  lemma StaysAtEntry(d: State, p: Pid, c: Call, ans: Answer)
    requires c.Select? && p in d.tracees && d.tracees[p].stop == AtEntry(c)
    requires var r := Handle(d, p, c, ans);
             p in ProcessStatusCode(r.s, r.code, p).tracees &&
             ProcessStatusCode(r.s, r.code, p).tracees[p].stop.AtEntry?
    ensures var r := Handle(d, p, c, ans); ProcessStatusCode(r.s, r.code, p).tracees[p].stop == AtEntry(c)
  {
  }

  lemma CoveredStep(s: State, p: Pid, step: Step)
    requires Inv(s) && Solo(s, p) && Covered(s, p) && Enabled(s, step) && SoloAllowed(s, step) && !Next(s, step).halted
    ensures Covered(Next(s, step), p)
  {
    if p in s.tracees && s.tracees[p].stop.AtEntry? && s.tracees[p].stop.call.Select? {
      CoveredWhileWaiting(s, p, step);
    } else if step.act.Fire? && CaughtBy(s, step.act.e, step.act.next).Some? {
      CoveredByDispatch(s, p, step.act.e, step.act.next, step.ans);
    } else {
      CoveredOtherwise(s, p, step);
    }
  }

  /** No other step takes a thread to the entry of select. */
  lemma CoveredOtherwise(s: State, p: Pid, step: Step)
    requires Inv(s) && Solo(s, p) && Enabled(s, step) && SoloAllowed(s, step) && !Next(s, step).halted
    requires p in s.tracees ==> !(s.tracees[p].stop.AtEntry? && s.tracees[p].stop.call.Select?)
    requires step.act.Fire? ==> CaughtBy(s, step.act.e, step.act.next).None?
    ensures Covered(Next(s, step), p)
  {
    var t := Next(s, step);
    SoloDiscipline(s, p, step);
    StepKeeps(s, step);
    if p in t.tracees && t.tracees[p].stop.AtEntry? && t.tracees[p].stop.call.Select? {
      RecordOf(t, p);
      OldRecord(s, p, step, t.tracees[p].cont.op);
    }
  }

  lemma RecordOf(t: State, p: Pid)
    requires Inv(t) && p in t.tracees && t.tracees[p].stop.AtEntry? && t.tracees[p].stop.call.Select?
    ensures t.tracees[p].cont.InSelect? &&
            var op := t.tracees[p].cont.op; op < |t.ops| && !t.ops[op].handled && t.ops[op].pid == p
  {
    assert ContOk(t.events, t.ops, t.net, p, t.tracees[p]);
  }

  /** A record that waits after such a step has waited before. */
  lemma OldRecord(s: State, p: Pid, step: Step, op: OpId)
    requires Inv(s) && Enabled(s, step) && Disciplined(s, step) && !Next(s, step).halted
    requires step.act.Fire? ==> CaughtBy(s, step.act.e, step.act.next).None?
    requires op < |Next(s, step).ops| && !Next(s, step).ops[op].handled && Next(s, step).ops[op].pid == p
    ensures p in s.tracees && s.tracees[p].stop.AtEntry? && s.tracees[p].stop.call.Select?
  {
    EventMakesNone(s, step);
    OpStep(s, step, op);
    Unanswered(s, op);
  }

  lemma EventMakesNone(s: State, step: Step)
    requires Inv(s) && Enabled(s, step) && Disciplined(s, step) && !Next(s, step).halted
    requires step.act.Fire? ==> CaughtBy(s, step.act.e, step.act.next).None?
    ensures |Next(s, step).ops| == |s.ops|
  {
    if step.act.Fire? {
      TimerMakesNone(s, step.act.e, step.act.next, step.ans);
    } else if step.act.Data? || step.act.Space? {
      TrafficMakesNone(s, step);
    } else {
      ArrivalMakesNone(s, step);
    }
  }

  lemma ArrivalMakesNone(s: State, step: Step)
    requires Inv(s) && Enabled(s, step) && Disciplined(s, step) && !Next(s, step).halted
    requires step.act.Connection? || step.act.ConnectEnds?
    ensures |Next(s, step).ops| == |s.ops|
  {
    if step.act.Connection? {
      ConnectionFrame(s.(now := step.act.at), step.act.sid, step.ans);
    } else {
      ConnectFrame(s.(now := step.act.at), step.act.sid, step.act.ok, step.ans);
    }
  }

  lemma TrafficMakesNone(s: State, step: Step)
    requires Inv(s) && Enabled(s, step) && Disciplined(s, step) && (step.act.Data? || step.act.Space?)
    ensures |Next(s, step).ops| == |s.ops|
  {
    if step.act.Data? {
      DataFrame(s.(now := step.act.at), step.act.sid, step.act.rx, step.ans);
    } else {
      SpaceFrame(s.(now := step.act.at), step.act.sid, step.act.tx, step.ans);
    }
  }

  lemma TimerMakesNone(s: State, e: EvId, next: Call, ans: Answer)
    requires Inv(s) && e in s.events && CaughtBy(s, e, next).None?
    ensures |Next(s, Step(Fire(e, next), ans)).ops| == |s.ops|
  {
    var s1, what := s.(now := s.events[e].at, events := s.events - {e}), s.events[e].what;
    if what.SelectTimeout? && StillWaits(s.ops, what.op) {
      FinishFrame(s1, what.op, s.ops[what.op].pid, SelectTimedOut, ans.stray);
    } else if what.SleepDone? {
      WakeFrame(s1, s1, what.pid, Value(0), ans.stray);
    }
  }

  /**
   * In one-thread runs from the start of the application the thread never waits in select for less than it asked for.
   */
  lemma {:induction false} SoloCovered(s: State, p: Pid, steps: seq<Step>)
    requires Inv(s) && Solo(s, p) && Covered(s, p) && SoloSound(s, steps) && !RunAll(s, steps).halted
    ensures Covered(RunAll(s, steps), p)
    decreases steps
  {
    if steps != [] {
      CoveredStep(s, p, steps[0]);
      SoloDiscipline(s, p, steps[0]);
      StepKeeps(s, steps[0]);
      SoloKept(s, p, steps[0]);
      SoloCovered(Next(s, steps[0]), p, steps[1..]);
    }
  }

  /**
   * With one thread, in every state: a thread at the entry of select waits in one operation, and every requested
   * descriptor that is open is not ready and holds its closure; at least one is, and a timeout that was asked for is
   * queued.
   */
  lemma SoloRequestIsWatched(app: App, p: Pid, steps: seq<Step>)
    requires SoloSound(Initial(app, p), steps) && !RunAll(Initial(app, p), steps).halted
    ensures var u := RunAll(Initial(app, p), steps);
            p in u.tracees && u.tracees[p].stop.AtEntry? && u.tracees[p].stop.call.Select? ==>
              exists op: nat :: WaitsForAll(u, p, u.tracees[p].stop.call, op)
  {
    var s := Initial(app, p);
    var u := RunAll(s, steps);
    InitialInv(app, p);
    SoloRunSound(s, p, steps);
    SoloCovered(s, p, steps);
    if p in u.tracees && u.tracees[p].stop.AtEntry? && u.tracees[p].stop.call.Select? {
      CoveredWaits(u, p);
    }
  }

  lemma CoveredWaits(u: State, p: Pid)
    requires Inv(u) && Covered(u, p) && p in u.tracees && u.tracees[p].stop.AtEntry? && u.tracees[p].stop.call.Select?
    ensures WaitsForAll(u, p, u.tracees[p].stop.call, u.tracees[p].cont.op)
  {
    var op := u.tracees[p].cont.op;
    assert ContOk(u.events, u.ops, u.net, p, u.tracees[p]);
    if u.ops[op].timeout.Some? {
      assert TimesOut(u.events, op, u.ops[op].timeout.value);
    }
  }

  ghost predicate WaitsForAll(u: State, p: Pid, c: Call, op: OpId)
    requires c.Select?
  {
    Waits(u, p, op) && WatchR(u.net.fds, c.rset) + WatchW(u.net.fds, c.wset) != {} &&
    (forall f :: f in WatchR(u.net.fds, c.rset) ==> WatchesR(u.net, op, f)) &&
    (forall f :: f in WatchW(u.net.fds, c.wset) ==> WatchesW(u.net, op, f)) &&
    (c.timeout.Some? ==> exists e :: TimesOut(u.events, op, e))
  }

  // ---- From the report to the call that relies on it ----------------------------------------------------

  /**
   * The step answers a select of thread `p`, at once or after it has waited, and the answer reports `f` as readable.
   */
  ghost predicate Reports(s: State, step: Step, p: Pid, f: Fd) {
    var t := Next(s, step);
    p in s.tracees && p in t.tracees && ReportsRead(t.tracees[p].stop, f) &&
    (SelectsNow(s, step, p) || (s.tracees[p].stop.AtEntry? && s.tracees[p].stop.call.Select?))
  }

  predicate ReportsRead(stop: Stop, f: Fd) {
    stop.AtExit? && stop.result.Selected? && stop.result.rset.Some? && f in stop.result.rset.value
  }

  predicate SelectsNow(s: State, step: Step, p: Pid) {
    step.act.Fire? && step.act.e in s.events && s.events[step.act.e].what == Before(p) &&
    p in s.tracees && s.tracees[p].stop.AtExit? && step.act.next.Select?
  }

  /** A report made at once is of what is readable. */
  lemma ImmediateReport(s: State, p: Pid, e: EvId, c: Call, ans: Answer, f: Fd)
    requires SelectsNow(s, Step(Fire(e, c), ans), p) && !Next(s, Step(Fire(e, c), ans)).halted
    requires p in Next(s, Step(Fire(e, c), ans)).tracees &&
             ReportsRead(Next(s, Step(Fire(e, c), ans)).tracees[p].stop, f)
    ensures Readable(Next(s, Step(Fire(e, c), ans)).net, f)
  {
    var d := Dispatched(s, e, p, c);
    EE.DispatchForm(s, e, c, ans);
    ReportForm(d, p, c, ans, f);
    ReportIsExact(d.net, c.rset, c.wset, f);
    AnsweredNet(d, p, SelectAnswer(d.net, c.rset, c.wset), Success, ans);
    StatusNet(Handle(d, p, c, ans), p);
  }

  lemma ReportForm(d: State, p: Pid, c: Call, ans: Answer, f: Fd)
    requires c.Select? && p in d.tracees && d.tracees[p].stop == AtEntry(c)
    requires var r := Handle(d, p, c, ans);
             var t := ProcessStatusCode(r.s, r.code, p);
             !t.halted && p in t.tracees && ReportsRead(t.tracees[p].stop, f)
    ensures Handle(d, p, c, ans) == Answered(d, p, SelectAnswer(d.net, c.rset, c.wset), Success, ans)
    ensures var r := SelectAnswer(d.net, c.rset, c.wset).rset; r.Some? && f in r.value
  {
  }

  /** A report made by a closure is of what has just come, and never of a connection whose listener is gone. */
  lemma ClosureReport(s: State, p: Pid, step: Step, f: Fd)
    requires Inv(s) && Solo(s, p) && Enabled(s, step) && SoloAllowed(s, step) && !Next(s, step).halted
    requires p in s.tracees && s.tracees[p].stop.AtEntry? && s.tracees[p].stop.call.Select?
    requires p in Next(s, step).tracees && ReportsRead(Next(s, step).tracees[p].stop, f)
    ensures Ready(Next(s, step).net, f)
  {
    SoloDiscipline(s, p, step);
    RecordOf(s, p);
    if step.act.Data? {
      DataReport(s, p, step, f, s.tracees[p].cont.op);
    } else if step.act.Connection? {
      ConnectionReport(s, p, step, f, s.tracees[p].cont.op);
    } else {
      NoOtherReport(s, p, step, f, s.tracees[p].cont.op);
    }
  }

  lemma DataReport(s: State, p: Pid, step: Step, f: Fd, op: OpId)
    requires Inv(s) && Enabled(s, step) && Disciplined(s, step) && step.act.Data?
    requires p in s.tracees && s.tracees[p].stop.AtEntry? && op < |s.ops| && !s.ops[op].handled && s.ops[op].pid == p
    requires p in Next(s, step).tracees && ReportsRead(Next(s, step).tracees[p].stop, f)
    ensures Ready(Next(s, step).net, f)
  {
    var s1 := s.(now := step.act.at);
    TimePasses(s, step.act.at);
    DataStep(s1, step.act.sid, step.act.rx, step.ans, op);
    DataReportsReady(s1, step.act.sid, step.act.rx, step.ans);
  }

  lemma ConnectionReport(s: State, p: Pid, step: Step, f: Fd, op: OpId)
    requires Inv(s) && Enabled(s, step) && Disciplined(s, step) && step.act.Connection? && !Next(s, step).halted
    requires p in s.tracees && s.tracees[p].stop.AtEntry? && op < |s.ops| && !s.ops[op].handled && s.ops[op].pid == p
    requires p in Next(s, step).tracees && ReportsRead(Next(s, step).tracees[p].stop, f)
    ensures Ready(Next(s, step).net, f)
  {
    var s1 := s.(now := step.act.at);
    TimePasses(s, step.act.at);
    ConnectionStep(s1, step.act.sid, step.ans, op);
    ConnectionReportsReady(s1, step.act.sid, step.ans);
  }

  /** Nothing else answers a select of the only thread with a descriptor to read. */
  lemma NoOtherReport(s: State, p: Pid, step: Step, f: Fd, op: OpId)
    requires Inv(s) && Solo(s, p) && Enabled(s, step) && Disciplined(s, step) && !Next(s, step).halted
    requires !step.act.Data? && !step.act.Connection?
    requires p in s.tracees && s.tracees[p].cont == InSelect(op) && s.tracees[p].stop.AtEntry?
    requires op < |s.ops| && !s.ops[op].handled && s.ops[op].pid == p
    ensures !(p in Next(s, step).tracees && ReportsRead(Next(s, step).tracees[p].stop, f))
  {
    match step.act
    case Space(at, sid, tx) =>
      TimePasses(s, at);
      SpaceStep(s.(now := at), sid, tx, step.ans, op);
    case ConnectEnds(at, sid, ok) =>
      TimePasses(s, at);
      ConnectEndStep(s.(now := at), sid, ok, step.ans, op);
    case Fire(e, next) =>
      assert EventOk(s.tracees, s.ops, e, s.events[e].what);
      if s.events[e].what.SelectTimeout? {
        TimeoutStep(s, e, next, step.ans, op);
      } else {
        QuietEventStep(s, e, next, step.ans, op);
      }
  }

  /** What is reported is readable, and nobody waits for it. */
  lemma ReportIsTrue(s: State, p: Pid, step: Step, f: Fd)
    requires Inv(s) && Solo(s, p) && Enabled(s, step) && SoloAllowed(s, step) && !Next(s, step).halted &&
             Reports(s, step, p, f)
    ensures var t := Next(s, step);
            Inv(t) && Solo(t, p) && Readable(t.net, f) && Unwaited(t, {f}) &&
            (!SelectsNow(s, step, p) ==> Ready(t.net, f))
  {
    var t := Next(s, step);
    SoloDiscipline(s, p, step);
    StepKeeps(s, step);
    SoloKept(s, p, step);
    if SelectsNow(s, step, p) {
      ImmediateReport(s, p, step.act.e, step.act.next, step.ans, f);
    } else {
      ClosureReport(s, p, step, f);
    }
    NobodyWaitsAtExit(t, p, f);
    ReadableIsReady(t, f);
  }

  lemma NobodyWaitsAtExit(t: State, p: Pid, f: Fd)
    requires Inv(t) && Solo(t, p) && p in t.tracees && t.tracees[p].stop.AtExit?
    ensures Unwaited(t, {f})
  {
    assert ContOk(t.events, t.ops, t.net, p, t.tracees[p]);
  }

  /**
   * From the report to the call that relies on it, in a program with one thread: once select has told the thread that
   * `f` is readable, at once or after waiting, then whatever happens short of a call that consumes what is there, the
   * next call that asks for it is given it at once. The one report this does not hold of is made at once, of a
   * descriptor that is readable only through a connection whose listener is gone.
   */
  lemma ReportIsHonoured(s: State, p: Pid, step: Step, f: Fd, steps: seq<Step>, c: Call, ans: Answer)
    requires Inv(s) && Solo(s, p) && Enabled(s, step) && SoloAllowed(s, step) && !Next(s, step).halted &&
             Reports(s, step, p, f)
    requires var t := Next(s, step); SoloSound(t, steps) && RunSpares(t, steps, f) && !RunAll(t, steps).halted
    ensures !SelectsNow(s, step, p) ==> !Haunted(Next(s, step).net, f)
    ensures var t := Next(s, step);
            var u := RunAll(t, steps);
            !Haunted(t.net, f) ==>
              Ready(u.net, f) &&
              (Suits(u.net, f, c) && p in u.tracees && u.tracees[p].stop.AtEntry? ==> Served(u, p, f, c, ans))
  {
    var t := Next(s, step);
    ReportIsTrue(s, p, step, f);
    ReadableIsReady(t, f);
    if !Haunted(t.net, f) {
      SoloIsHonoured(t, p, steps, f, c, ans);
    }
  }
}
