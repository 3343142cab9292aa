/**
 * A select that waits is answered exactly once: every watched descriptor holds its closure, whichever
 * of them, or the timeout, comes first answers it with one descriptor, and the others come to nothing.
 */
module SelectWakeups {
  import opened Base
  import opened NetlinkWire
  import opened Sim
  import opened SimInv
  import opened SimCallbacks
  import opened SimServing
  import opened SimRun
  import opened SimFrame
  import NL = Netlink

  // ---- What a waiting select looks like -----------------------------------------------------

  /** Thread `p` stands in a select that has not been answered. */
  ghost predicate Waits(s: State, p: Pid, op: OpId) {
    p in s.tracees && s.tracees[p].stop.AtEntry? && op < |s.ops| && s.ops[op].pid == p && !s.ops[op].handled
  }

  /**
   * No lost wake-up: between events a thread at the entry of select waits in exactly one operation. It watches at least
   * one descriptor; each is one the call names, is not ready, and holds a closure of this operation. A timeout is in
   * the queue exactly if the call gives one. That what was asked for is what is watched, module SelectRequests says.
   */
  lemma NoLostWakeup(s: State, p: Pid)
    requires Inv(s) && p in s.tracees && s.tracees[p].stop.AtEntry? && s.tracees[p].stop.call.Select?
    ensures exists op: nat :: Waits(s, p, op)
    ensures forall op: nat, other: nat :: Waits(s, p, op) && Waits(s, p, other) ==> op == other
    ensures forall op: nat :: Waits(s, p, op) ==>
                           var c, o := s.tracees[p].stop.call, s.ops[op];
                           o.watchR + o.watchW != {} && o.watchR <= Given(c.rset) && o.watchW <= Given(c.wset) &&
                           WatchedBy(s.net, op, o) &&
                           (c.timeout.Some? <==> exists e :: e in s.events && s.events[e].what == SelectTimeout(op))
  {
    assert ContOk(s.events, s.ops, s.net, p, s.tracees[p]);
    forall op: nat | Waits(s, p, op) ensures s.tracees[p].cont == InSelect(op) {
      assert OpOk(s.tracees, op, s.ops[op]);
    }
    assert forall e :: e in s.events ==> EventOk(s.tracees, s.ops, e, s.events[e].what);
    assert Waits(s, p, s.tracees[p].cont.op);
  }

  // ---- Answered at most once, and properly --------------------------------------------------

  /** What a waiting select can be answered with: its timeout, or one descriptor it watches. */
  ghost predicate Proper(o: SelectOp, result: Result) {
    (result == SelectTimedOut && o.timeout.Some?) ||
    (exists f :: f in o.watchR && result == OneRead(o, f)) ||
    (exists f :: f in o.watchW && result == OneWrite(o, f))
  }

  ghost predicate Untouched(s: State, t: State, op: OpId)
    requires op < |s.ops|
  {
    op < |t.ops| && t.ops[op] == s.ops[op] &&
    (!s.ops[op].handled && s.ops[op].pid in s.tracees ==>
       s.ops[op].pid in t.tracees && t.tracees[s.ops[op].pid] == s.tracees[s.ops[op].pid])
  }

  /** The thread of the select stands at the exit of the call with a proper answer and is scheduled. */
  ghost predicate Answers(s: State, t: State, op: OpId)
    requires op < |s.ops|
  {
    var p := s.ops[op].pid;
    !s.ops[op].handled && op < |t.ops| && t.ops[op] == s.ops[op].(handled := true) &&
    p in t.tracees && t.tracees[p].stop.AtExit? && Proper(s.ops[op], t.tracees[p].stop.result) &&
    t.tracees[p].cont.Resumes?
  }

  lemma FinishAnswers(s: State, op: OpId, result: Result, stray: Call)
    requires Inv(s) && StillWaits(s.ops, op) && Proper(s.ops[op], result)
    ensures var t := FinishSelect(s, op, s.ops[op].pid, result, stray);
            Answers(s, t, op) && t.tracees[s.ops[op].pid].stop == AtExit(result)
  {
    Unanswered(s, op);
  }

  /** A step that is about other threads. */
  lemma ElsewhereUntouched(s: State, t: State, who: set<Pid>, done: Option<OpId>, op: OpId)
    requires Inv(s) && op < |s.ops| && FrameOf(s, t, who, done) && done != Some(op)
    requires forall q :: q in who && q in s.tracees ==> s.tracees[q].cont != InSelect(op)
    ensures Untouched(s, t, op)
  {
    if !s.ops[op].handled {
      Unanswered(s, op);
    }
  }

  /** The closure in a receive slot answers its own select and no other. */
  lemma DataStep(s: State, sid: SockId, rx: nat, ans: Answer, op: OpId)
    requires Inv(s) && DataAllowed(s, sid) && op < |s.ops|
    ensures var r, t := s.net.socks[sid].recv, OnData(s, sid, rx, ans);
            if r.SelectRecv? && r.op == op && !s.ops[op].handled then
              Answers(s, t, op) && t.tracees[s.ops[op].pid].stop == AtExit(OneRead(s.ops[op], r.fd))
            else Untouched(s, t, op)
  {
    var r := s.net.socks[sid].recv;
    assert SlotsOk(s.tracees, s.ops, s.net.fds, sid, s.net.socks[sid]);
    if r.SelectRecv? && StillWaits(s.ops, r.op) {
      Unanswered(s, r.op);
      FinishAnswers(s, r.op, OneRead(s.ops[r.op], r.fd), ans.stray);
      SelectDataForm(s, sid, rx, ans);
    }
    if !(r.SelectRecv? && r.op == op && StillWaits(s.ops, op)) {
      DataFrame(s, sid, rx, ans);
      var (who, done) := RecvOf(s.ops, r);
      ElsewhereUntouched(s, OnData(s, sid, rx, ans), who, done, op);
    }
  }

  lemma SpaceStep(s: State, sid: SockId, tx: nat, ans: Answer, op: OpId)
    requires Inv(s) && sid < |s.net.socks| && op < |s.ops|
    ensures var c, t := s.net.socks[sid].send, OnSpace(s, sid, tx, ans);
            if c.SelectSend? && c.op == op && !s.ops[op].handled then
              Answers(s, t, op) && t.tracees[s.ops[op].pid].stop == AtExit(OneWrite(s.ops[op], c.fd))
            else Untouched(s, t, op)
  {
    var c := s.net.socks[sid].send;
    assert SlotsOk(s.tracees, s.ops, s.net.fds, sid, s.net.socks[sid]);
    if c.SelectSend? && StillWaits(s.ops, c.op) {
      Unanswered(s, c.op);
      FinishAnswers(s, c.op, OneWrite(s.ops[c.op], c.fd), ans.stray);
      SelectSpaceForm(s, sid, tx, ans);
    }
    if !(c.SelectSend? && c.op == op && StillWaits(s.ops, op)) {
      SpaceFrame(s, sid, tx, ans);
      var (who, done) := SendOf(s.ops, c);
      ElsewhereUntouched(s, OnSpace(s, sid, tx, ans), who, done, op);
    }
  }

  lemma ConnectionStep(s: State, sid: SockId, ans: Answer, op: OpId)
    requires Inv(s) && ConnectionAllowed(s, sid) && op < |s.ops| && !OnConnection(s, sid, ans).halted
    ensures var a, t := s.net.socks[sid].accept, OnConnection(s, sid, ans);
            if a.SelectAccept? && a.op == op && !s.ops[op].handled then
              Answers(s, t, op) && t.tracees[s.ops[op].pid].stop == AtExit(OneRead(s.ops[op], a.fd)) &&
              a.fd in t.net.fds.fakeAccepted
            else Untouched(s, t, op)
  {
    var a := s.net.socks[sid].accept;
    assert SlotsOk(s.tracees, s.ops, s.net.fds, sid, s.net.socks[sid]);
    if a.SelectAccept? && StillWaits(s.ops, a.op) {
      Unanswered(s, a.op);
      FinishAnswers(s, a.op, OneRead(s.ops[a.op], a.fd), ans.stray);
      SelectAcceptForm(s, sid, a.fd, ans);
    }
    if !(a.SelectAccept? && a.op == op && StillWaits(s.ops, op)) {
      ConnectionFrame(s, sid, ans);
      var (who, done) := AcceptOf(s.ops, a);
      ElsewhereUntouched(s, OnConnection(s, sid, ans), who, done, op);
    }
  }

  lemma ConnectEndStep(s: State, sid: SockId, ok: bool, ans: Answer, op: OpId)
    requires Inv(s) && sid < |s.net.socks| && s.net.socks[sid].connecting && op < |s.ops|
    ensures Untouched(s, OnConnect(s, sid, ok, ans), op)
  {
    assert SlotsOk(s.tracees, s.ops, s.net.fds, sid, s.net.socks[sid]);
    ConnectFrame(s, sid, ok, ans);
    ElsewhereUntouched(s, OnConnect(s, sid, ok, ans), {s.net.socks[sid].connect.pid}, None, op);
  }

  lemma TimeoutStep(s: State, e: EvId, next: Call, ans: Answer, op: OpId)
    requires Inv(s) && IsNext(s.events, e) && s.events[e].what.SelectTimeout? && op < |s.ops|
    ensures var t := Next(s, Step(Fire(e, next), ans));
            if s.events[e].what.op == op then
              Answers(s, t, op) && t.tracees[s.ops[op].pid].stop == AtExit(SelectTimedOut)
            else Untouched(s, t, op)
  {
    var at, done := s.events[e].at, s.events[e].what.op;
    assert EventOk(s.tracees, s.ops, e, s.events[e].what);
    TimePasses(s, at);
    TimeoutForm(s, at, e, done, ans);
    FinishAnswers(s.(now := at), done, SelectTimedOut, ans.stray);
    if done != op && !s.ops[op].handled {
      OtherWaiter(s, done, op);
    }
  }

  /** Two unanswered operations belong to two threads. */
  lemma OtherWaiter(s: State, a: OpId, b: OpId)
    requires Inv(s) && StillWaits(s.ops, a) && StillWaits(s.ops, b) && a != b
    ensures s.ops[a].pid != s.ops[b].pid && s.ops[b].pid in s.tracees
  {
    Unanswered(s, a);
    Unanswered(s, b);
  }

  // ---- Dispatches -------------------------------------------------------------------------------

  lemma NetlinkAnswers(s: State, p: Pid, fd: Fd, walked: Outcome<seq<Effect>>, returned: int, ans: Answer, op: OpId)
    requires Active(s, {p}) && KnownNl(s.net, fd) && Notified(s, fd, walked) == Some(op)
    requires s.net.nls[s.net.fds.netlinks[fd]].owner == p
    ensures var t := NetlinkSend(s, fd, walked, returned, ans).s;
            op < |s.ops| && Answers(s, t, op) && s.ops[op].pid != p &&
            t.tracees[s.ops[op].pid].stop == AtExit(OneRead(s.ops[op], fd))
  {
    var n, es := s.net.fds.netlinks[fd], walked.value;
    NlWatcher(s, fd);
    NotifyForm(s, fd, es, ans);
    Unanswered(s, op);
    FinishAnswersServed(s, p, op, OneRead(s.ops[op], fd), ans.stray);
    var f := FinishSelect(s, op, s.ops[op].pid, OneRead(s.ops[op], fd), ans.stray);
    BystanderAnswered(Sent(f, n, es, NoNl), p, Value(returned), ans, s.ops[op].pid);
  }

  lemma FinishAnswersServed(s: State, p: Pid, op: OpId, result: Result, stray: Call)
    requires Active(s, {p}) && StillWaits(s.ops, op) && Proper(s.ops[op], result)
    ensures var t := FinishSelect(s, op, s.ops[op].pid, result, stray);
            Answers(s, t, op) && t.tracees[s.ops[op].pid].stop == AtExit(result) && s.ops[op].pid != p
  {
    Unanswered(s, op);
  }

  lemma BystanderAnswered(s: State, p: Pid, result: Result, ans: Answer, q: Pid)
    requires q != p && q in s.tracees
    ensures var t := Answered(s, p, result, Success, ans).s;
            q in t.tracees && t.tracees[q] == s.tracees[q] && t.ops == s.ops
  {
  }

  lemma RequestAnswers(s: State, p: Pid, c: Call, ans: Answer, op: OpId)
    requires Active(s, {p}) && NotifiedBy(s, c) == Some(op) && OwnCall(s.net, p, c)
    ensures op < |s.ops| && Answers(s, Handle(s, p, c, ans).s, op) && s.ops[op].pid != p
  {
    match c
    case SendTo(fd, buf, flags, _) => NetlinkAnswers(s, p, fd, WalkMsgs(buf, s.app.devices), LeftoverValue(buf), ans,
                                                     op);
    case SendMsg(fd, iov) => NetlinkAnswers(s, p, fd, WalkBuffers(iov, s.app.devices), NL.TotalLen(iov), ans, op);
  }

  lemma CloneStep(s: State, p: Pid, ans: Answer, op: OpId)
    requires Active(s, {p}) && op < |s.ops| && ans.tid !in s.tracees
    ensures Untouched(s, HandleClone(s, p, ans).s, op)
  {
    if !s.ops[op].handled {
      Unanswered(s, op);
    }
  }

  /** A dispatched call answers the select it notifies and leaves the others alone. */
  lemma CallStep(s: State, p: Pid, c: Call, ans: Answer, op: OpId)
    requires Active(s, {p}) && p in s.tracees && op < |s.ops| && (c.Clone? ==> ans.tid !in s.tracees) &&
             OwnCall(s.net, p, c)
    ensures if NotifiedBy(s, c) == Some(op) then Answers(s, Handle(s, p, c, ans).s, op) && s.ops[op].pid != p
            else Untouched(s, Handle(s, p, c, ans).s, op)
  {
    if c.Clone? {
      CloneStep(s, p, ans, op);
    } else if NotifiedBy(s, c) == Some(op) {
      RequestAnswers(s, p, c, ans, op);
    } else {
      CallMoves(s, p, c, ans);
      if !s.ops[op].handled {
        Unanswered(s, op);
        NotifiedOther(s, c, op);
      }
    }
  }


  lemma NotifiedOther(s: State, c: Call, op: OpId)
    requires Core(s) && op < |s.ops| && !s.ops[op].handled && NotifiedBy(s, c) != Some(op)
    ensures !PidOf(s.ops, NotifiedBy(s, c), s.ops[op].pid)
  {
    Unanswered(s, op);
    var other := NotifiedBy(s, c);
    if other.Some? {
      Unanswered(s, other.value);
    }
  }

  lemma DispatchStep(s: State, e: EvId, p: Pid, next: Call, ans: Answer, op: OpId)
    requires Inv(s) && IsNext(s.events, e) && s.events[e].what == Before(p) && op < |s.ops|
    requires p in s.tracees && s.tracees[p].stop != AtEntry(Exit) &&
             (Caught(s, p, next).Clone? ==> ans.tid !in s.tracees)
    requires OwnCall(s.net, p, Caught(s, p, next))
    ensures var r := Handle(Dispatched(s, e, p, next), p, Caught(s, p, next), ans);
            var t := ProcessStatusCode(r.s, r.code, p);
            Untouched(s, t, op) || Answers(s, t, op)
  {
    var c, d := Caught(s, p, next), Dispatched(s, e, p, next);
    DispatchedActive(s, e, p, next);
    assert HasCont(s.tracees, p, Resumes(e)) by {
      assert EventOk(s.tracees, s.ops, e, s.events[e].what);
    }
    CallStep(d, p, c, ans, op);
    StatusFrame(Handle(d, p, c, ans), p);
    if !s.ops[op].handled {
      Unanswered(s, op);
    }
  }

  lemma FireStep(s: State, e: EvId, next: Call, ans: Answer, op: OpId)
    requires Inv(s) && Enabled(s, Step(Fire(e, next), ans)) && Disciplined(s, Step(Fire(e, next), ans)) && op < |s.ops|
    ensures var t := Next(s, Step(Fire(e, next), ans)); Untouched(s, t, op) || Answers(s, t, op)
  {
    var what := s.events[e].what;
    if what.Before? {
      BeforeStep(s, e, what.pid, next, ans, op);
    } else if what.SelectTimeout? {
      TimeoutStep(s, e, next, ans, op);
    } else {
      QuietEventStep(s, e, next, ans, op);
    }
  }

  lemma BeforeStep(s: State, e: EvId, p: Pid, next: Call, ans: Answer, op: OpId)
    requires Inv(s) && Enabled(s, Step(Fire(e, next), ans)) && Disciplined(s, Step(Fire(e, next), ans)) && op < |s.ops|
    requires s.events[e].what == Before(p)
    ensures var t := Next(s, Step(Fire(e, next), ans)); Untouched(s, t, op) || Answers(s, t, op)
  {
    assert EventOk(s.tracees, s.ops, e, s.events[e].what);
    if s.tracees[p].stop != AtEntry(Exit) {
      DispatchStep(s, e, p, next, ans, op);
    } else if !s.ops[op].handled {
      Unanswered(s, op);
    }
  }

  lemma QuietEventStep(s: State, e: EvId, next: Call, ans: Answer, op: OpId)
    requires Inv(s) && e in s.events && (s.events[e].what.SleepDone? || s.events[e].what.SocketCleanup?) && op < |s.ops|
    ensures Untouched(s, Next(s, Step(Fire(e, next), ans)), op)
  {
    assert EventOk(s.tracees, s.ops, e, s.events[e].what);
    if !s.ops[op].handled {
      Unanswered(s, op);
    }
    var s1 := s.(now := s.events[e].at, events := s.events - {e});
    if s.events[e].what.SleepDone? {
      WakeFrame(s1, s1, s.events[e].what.pid, Value(0), ans.stray);
    }
  }

  /** No step but one that answers a select concerns it; an answered select is never touched again. */
  lemma OpStep(s: State, step: Step, op: OpId)
    requires Inv(s) && Enabled(s, step) && Disciplined(s, step) && op < |s.ops| && !Next(s, step).halted
    ensures Untouched(s, Next(s, step), op) || Answers(s, Next(s, step), op)
  {
    if step.act.Fire? {
      FireStep(s, step.act.e, step.act.next, step.ans, op);
    } else {
      CallbackStep(s, step, op);
    }
  }

  lemma CallbackStep(s: State, step: Step, op: OpId)
    requires Inv(s) && Enabled(s, step) && Disciplined(s, step) && op < |s.ops| && !Next(s, step).halted &&
             !step.act.Fire?
    ensures Untouched(s, Next(s, step), op) || Answers(s, Next(s, step), op)
  {
    match step.act
    case Data(at, sid, rx) =>
      TimePasses(s, at);
      DataStep(s.(now := at), sid, rx, step.ans, op);
    case Space(at, sid, tx) =>
      TimePasses(s, at);
      SpaceStep(s.(now := at), sid, tx, step.ans, op);
    case Connection(at, sid) =>
      TimePasses(s, at);
      ConnectionStep(s.(now := at), sid, step.ans, op);
    case ConnectEnds(at, sid, ok) =>
      TimePasses(s, at);
      ConnectEndStep(s.(now := at), sid, ok, step.ans, op);
  }

  // ---- Whichever comes first -------------------------------------------------------------------

  /** The answer a step owes a waiting select: it concerns a descriptor that the select watches, or its timeout. */
  ghost function Owed(s: State, step: Step, op: OpId): Option<Result>
    requires op < |s.ops|
  {
    var o, t := s.ops[op], s.net.fds;
    match step.act
    case Data(_, sid, _) =>
      if f :| f in o.watchR && IsFdOf(t.sockets, f, sid) then Some(OneRead(o, f)) else None
    case Connection(_, sid) =>
      if f :| f in o.watchR && IsFdOf(t.sockets, f, sid) then Some(OneRead(o, f)) else None
    case Space(_, sid, _) =>
      if f :| f in o.watchW && IsFdOf(t.sockets, f, sid) then Some(OneWrite(o, f)) else None
    case Fire(e, _) => if o.timeout == Some(e) then Some(SelectTimedOut) else None
    case _ => None
  }

  lemma DataAnswers(s: State, step: Step, op: OpId)
    requires Inv(s) && Enabled(s, step) && Disciplined(s, step) && StillWaits(s.ops, op) && !Next(s, step).halted
    requires Owed(s, step, op).Some? && step.act.Data?
    ensures Answers(s, Next(s, step), op)
    ensures Next(s, step).tracees[s.ops[op].pid].stop == AtExit(Owed(s, step, op).value)
  {
    Unanswered(s, op);
    assert forall f :: f in s.ops[op].watchR ==> WatchesR(s.net, op, f);
    TimePasses(s, step.act.at);
    DataStep(s.(now := step.act.at), step.act.sid, step.act.rx, step.ans, op);
  }

  lemma ConnectionAnswers(s: State, step: Step, op: OpId)
    requires Inv(s) && Enabled(s, step) && Disciplined(s, step) && StillWaits(s.ops, op) && !Next(s, step).halted
    requires Owed(s, step, op).Some? && step.act.Connection?
    ensures Answers(s, Next(s, step), op)
    ensures Next(s, step).tracees[s.ops[op].pid].stop == AtExit(Owed(s, step, op).value)
  {
    Unanswered(s, op);
    assert forall f :: f in s.ops[op].watchR ==> WatchesR(s.net, op, f);
    TimePasses(s, step.act.at);
    ConnectionStep(s.(now := step.act.at), step.act.sid, step.ans, op);
  }

  lemma SpaceAnswers(s: State, step: Step, op: OpId)
    requires Inv(s) && Enabled(s, step) && Disciplined(s, step) && StillWaits(s.ops, op) && !Next(s, step).halted
    requires Owed(s, step, op).Some? && step.act.Space?
    ensures Answers(s, Next(s, step), op)
    ensures Next(s, step).tracees[s.ops[op].pid].stop == AtExit(Owed(s, step, op).value)
  {
    Unanswered(s, op);
    assert forall f :: f in s.ops[op].watchW ==> WatchesW(s.net, op, f);
    TimePasses(s, step.act.at);
    SpaceStep(s.(now := step.act.at), step.act.sid, step.act.tx, step.ans, op);
  }

  /** Data, a connection or space on a watched descriptor, or the timeout, answers the select at once. */
  lemma FirstEventAnswers(s: State, step: Step, op: OpId)
    requires Inv(s) && Enabled(s, step) && Disciplined(s, step) && StillWaits(s.ops, op) && !Next(s, step).halted
    requires Owed(s, step, op).Some?
    ensures Answers(s, Next(s, step), op)
    ensures Next(s, step).tracees[s.ops[op].pid].stop == AtExit(Owed(s, step, op).value)
  {
    match step.act
    case Data(_, _, _) => DataAnswers(s, step, op);
    case Connection(_, _) => ConnectionAnswers(s, step, op);
    case Space(_, _, _) => SpaceAnswers(s, step, op);
    case Fire(e, next) =>
      Unanswered(s, op);
      TimeoutStep(s, e, next, step.ans, op);
  }

  // ---- Runs ---------------------------------------------------------------------------------------

  /** How often a select is answered in the course of a run. */
  ghost function TimesAnswered(s: State, steps: seq<Step>, op: OpId): nat
    decreases steps
  {
    if steps == [] || s.halted then 0
    else
      var t := Next(s, steps[0]);
      (if op < |s.ops| && Answers(s, t, op) then 1 else 0) + TimesAnswered(t, steps[1..], op)
  }

  /** Over a whole run a waiting select is answered once if it is answered in the end, and else never. */
  lemma {:induction false} AnsweredOnce(s: State, steps: seq<Step>, op: OpId)
    requires Inv(s) && Sound(s, steps) && op < |s.ops| && !RunAll(s, steps).halted
    ensures var t := RunAll(s, steps);
            op < |t.ops| && (s.ops[op].handled ==> t.ops[op] == s.ops[op]) &&
            TimesAnswered(s, steps, op) == if t.ops[op].handled && !s.ops[op].handled then 1 else 0
    decreases steps
  {
    if steps != [] {
      var t := Next(s, steps[0]);
      StepKeeps(s, steps[0]);
      OpStep(s, steps[0], op);
      AnsweredOnce(t, steps[1..], op);
    }
  }
}
