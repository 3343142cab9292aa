/** Every step of the simulator keeps the invariant, and so does every run from the start of the application. */
module SimRun {
  import opened Base
  import opened Sim
  import opened SimInv
  import opened SimHandlers
  import opened SimCallbacks
  import opened SimServing
  import opened SimSelect
  import PD = PollDetector

  // ---- Dispatch ----------------------------------------------------------------------------

  /**
   * What the application must not do: overwrite a closure some other thread is still to be resumed by, close or
   * turn into a listener what another thread waits on, call on a netlink socket another thread made, send a
   * request whose replies a waiting thread does not hear of, or wait for what never comes: in a write, in a receive
   * where ns-3 listens, in an accept or a select for connections where it does not, in a connect that it refuses.
   */
  ghost predicate CallAllowed(s: State, p: Pid, c: Call, ans: Answer) {
    match c
    case Read(fd, _) => fd in s.net.fds.tcp ==> ReceiveFits(s, fd)
    case RecvFrom(fd, _) => ReceiveFits(s, fd)
    case Write(fd, _) => !WriteBlocks(s.net, fd)
    case Close(fd) => AllIdle(s, fd)
    case Listen(fd) => ListenFits(s, fd, ans)
    case Connect(_, _) => ConnectFits(s, c, ans)
    case Accept(fd) => AcceptFits(s, fd)
    case Select(_, _, _, _) => SelectFits(s, c)
    case SendTo(_, _, _, _) => SendHeard(s, c) && OwnCall(s.net, p, c)
    case SendMsg(_, _) => SendHeard(s, c) && OwnCall(s.net, p, c)
    case RecvMsg(_, _) => OwnCall(s.net, p, c)
    case _ => true
  }

  lemma DescriptorCallOk(s: State, p: Pid, c: Call, ans: Answer)
    requires Serving(s, p, c) && CallAllowed(s, p, c, ans)
    requires c.Read? || c.RecvFrom? || c.Write? || c.Open? || c.Close? || c.Fcntl? || c.Socket? || c.Listen? ||
             c.Accept?
    ensures ResOk(Handle(s, p, c, ans), p)
  {
    match c
    case Read(_, _) => ReadOk(s, p, c, ans);
    case RecvFrom(_, _) => RecvFromOk(s, p, c, ans);
    case Write(_, _) => WriteOk(s, p, c, ans);
    case Open(_) => OpenOk(s, p, c, ans);
    case Close(_) => CloseOk(s, p, c, ans);
    case Fcntl(_, _) => FcntlOk(s, p, c, ans);
    case Socket(_, _, _) => SocketOk(s, p, c, ans);
    case Listen(_) => ListenOk(s, p, c, ans);
    case Accept(_) => AcceptOk(s, p, c, ans);
  }

  lemma WaitingCallOk(s: State, p: Pid, c: Call, ans: Answer)
    requires Serving(s, p, c) && CallAllowed(s, p, c, ans)
    requires c.SendTo? || c.SendMsg? || c.RecvMsg? || c.Connect? || c.Select? || c.NanoSleep?
    ensures ResOk(Handle(s, p, c, ans), p)
  {
    match c
    case SendTo(_, _, _, _) => SendToOk(s, p, c, ans);
    case SendMsg(_, _) => SendMsgOk(s, p, c, ans);
    case RecvMsg(_, _) => RecvMsgOk(s, p, c, ans);
    case Connect(_, _) => ConnectOk(s, p, c, ans);
    case Select(_, _, _, _) => SelectOk(s, p, c, ans);
    case NanoSleep(_, _) => NanoSleepOk(s, p, c);
  }

  lemma ClockCallOk(s: State, p: Pid, c: Call, ans: Answer)
    requires Serving(s, p, c) && (c.ClockGetTime? || c.ClockGetRes?)
    ensures ResOk(Handle(s, p, c, ans), p)
  {
    if TwoDispatches(c) {
      StoreOnlyOk(s, p, c, ClockReading(s, c));
    } else {
      AnsweredOk(s, p, Value(-1), Failure, ans);
    }
  }

  function ClockReading(s: State, c: Call): Result {
    if c.ClockGetTime? then NanoClock(s.now) else Clock(0, 10)
  }

  lemma PlainCallOk(s: State, p: Pid, c: Call, ans: Answer)
    requires Serving(s, p, c) && (c.Clone? ==> ans.tid !in s.tracees)
    requires c.PassThrough? || c.Constant? || c.GetTimeOfDay? || c.ClockGetTime? || c.ClockGetRes? || c.Clone? ||
             c.Exit? || c.ExitGroup? || c.Unsupported?
    ensures ResOk(Handle(s, p, c, ans), p)
  {
    if c.ClockGetTime? || c.ClockGetRes? {
      ClockCallOk(s, p, c, ans);
    } else if c.Clone? {
      CloneOk(s, p, c, ans);
    } else if c.PassThrough? || c.Constant? || c.GetTimeOfDay? {
      AnsweredCallOk(s, p, c, ans);
    }
  }

  lemma AnsweredCallOk(s: State, p: Pid, c: Call, ans: Answer)
    requires Serving(s, p, c) && (c.PassThrough? || c.Constant? || c.GetTimeOfDay?)
    ensures ResOk(Handle(s, p, c, ans), p)
  {
    var result := if c.PassThrough? then Kernel else if c.Constant? then Value(c.value) else MicroClock(s.now);
    AnsweredOk(s, p, result, Success, ans);
  }

  lemma HandleOk(s: State, p: Pid, c: Call, ans: Answer)
    requires Serving(s, p, c) && CallAllowed(s, p, c, ans) && (c.Clone? ==> ans.tid !in s.tracees)
    ensures ResOk(Handle(s, p, c, ans), p)
  {
    if c.Read? || c.RecvFrom? || c.Write? || c.Open? || c.Close? || c.Fcntl? || c.Socket? || c.Listen? || c.Accept? {
      DescriptorCallOk(s, p, c, ans);
    } else if c.SendTo? || c.SendMsg? || c.RecvMsg? || c.Connect? || c.Select? || c.NanoSleep? {
      WaitingCallOk(s, p, c, ans);
    } else {
      PlainCallOk(s, p, c, ans);
    }
  }

  /** The status code decides who resumes the thread. */
  lemma StatusOk(r: Res, p: Pid)
    requires ResOk(r, p)
    ensures ProcessStatusCode(r.s, r.code, p).halted || Inv(ProcessStatusCode(r.s, r.code, p))
  {
    assert {p} - {p} == {};
    match r.code
    case Success => ResumeKeeps(r.s, p, {p});
    case Failure => ResumeKeeps(r.s, p, {p});
    case SystemExit => ThreadLeaves(r.s, p);
    case Delayed =>
    case Manual =>
    case Error =>
  }

  // ---- Taking an event from the queue --------------------------------------------------------

  /** The event is gone, the clock stands at its time, and its thread is being served. */
  function Popped(s: State, e: EvId, p: Pid, t: Tracee): State
    requires e in s.events
  {
    s.(now := s.events[e].at, events := s.events - {e}, tracees := s.tracees[p := t])
  }

  lemma PopKeeps(s: State, e: EvId, p: Pid, t: Tracee)
    requires Inv(s) && IsNext(s.events, e) && t.cont == InFlight
    requires s.events[e].what == Before(p) || s.events[e].what == SleepDone(p)
    ensures p in s.tracees && Active(Popped(s, e, p, t), {p})
  {
    assert EventOk(s.tracees, s.ops, e, s.events[e].what);
    var n := Popped(s, e, p, t);
    assert forall q, c :: q != p ==> (HasCont(n.tracees, q, c) <==> HasCont(s.tracees, q, c));
    forall q | q in n.tracees ensures ContOk(n.events, n.ops, n.net, q, n.tracees[q]) {
      if q != p {
        assert ContOk(s.events, s.ops, s.net, q, s.tracees[q]);
      }
    }
    PopRefs(s, e, p, t);
  }

  lemma PopRefs(s: State, e: EvId, p: Pid, t: Tracee)
    requires Core(s) && e in s.events && EventOk(s.tracees, s.ops, e, s.events[e].what)
    requires s.events[e].what == Before(p) || s.events[e].what == SleepDone(p)
    ensures var n := Popped(s, e, p, t); EventsOk(n) && OpsOk(n) && SocksOk(n.tracees, n.ops, n.net)
  {
    var n := Popped(s, e, p, t);
    forall f | f in n.events ensures EventOk(n.tracees, n.ops, f, n.events[f].what) {
      assert EventOk(s.tracees, s.ops, f, s.events[f].what);
    }
    forall op: nat | op < |n.ops| ensures OpOk(n.tracees, op, n.ops[op]) {
      assert OpOk(s.tracees, op, s.ops[op]);
    }
    forall sid: nat | sid < |n.net.socks| ensures SlotsOk(n.tracees, n.ops, n.net.fds, sid, n.net.socks[sid]) {
      assert SlotsOk(s.tracees, s.ops, s.net.fds, sid, s.net.socks[sid]);
    }
  }

  /** The member pid and the poll detector are nobody's business. */
  lemma PidPollKeeps(s: State, p: Pid, poll: PD.Poll, who: set<Pid>)
    requires Active(s, who)
    ensures Active(s.(pid := p, poll := poll), who)
  {
  }


  /** A dispatch, from the queue to the handler: the thread is at its next stop. */
  function Dispatched(s: State, e: EvId, p: Pid, next: Call): State
    requires e in s.events && p in s.tracees
  {
    ObserveCall(Arrive(s.(now := s.events[e].at, events := s.events - {e}), p, next), Caught(s, p, next))
  }

  function ArrivedAt(s: State, p: Pid, next: Call): Stop
    requires p in s.tracees
  {
    if s.tracees[p].stop.AtExit? then AtEntry(next) else AtExit(Kernel)
  }

  lemma DispatchedActive(s: State, e: EvId, p: Pid, next: Call)
    requires Inv(s) && IsNext(s.events, e) && s.events[e].what == Before(p) && p in s.tracees
    ensures var d := Dispatched(s, e, p, next);
            Active(d, {p}) && d.tracees == s.tracees[p := Tracee(ArrivedAt(s, p, next), InFlight)] &&
            d.net == s.net && d.ops == s.ops && d.app == s.app
  {
    var t, d := Tracee(ArrivedAt(s, p, next), InFlight), Dispatched(s, e, p, next);
    PopKeeps(s, e, p, t);
    PidPollKeeps(Popped(s, e, p, t), p, d.poll, {p});
    assert d == Popped(s, e, p, t).(pid := p, poll := d.poll);
  }

  /** What is allowed before the dispatch is allowed after it. */
  lemma StillAllowed(s: State, d: State, p: Pid, c: Call, ans: Answer)
    requires p in s.tracees && p in d.tracees
    requires d.tracees == s.tracees[p := d.tracees[p]]
    requires !s.tracees[p].cont.InAccept? && !d.tracees[p].cont.InAccept?
    requires d.net == s.net && d.ops == s.ops && d.app == s.app
    ensures CallAllowed(d, p, c, ans) <==> CallAllowed(s, p, c, ans)
  {
    assert forall a :: AcceptIdle(s.tracees, s.ops, a) <==> AcceptIdle(d.tracees, d.ops, a);
  }

  lemma DispatchKeeps(s: State, e: EvId, p: Pid, next: Call, ans: Answer)
    requires Inv(s) && IsNext(s.events, e) && s.events[e].what == Before(p)
    requires p in s.tracees && s.tracees[p].stop != AtEntry(Exit)
    requires CallAllowed(s, p, Caught(s, p, next), ans) && (Caught(s, p, next).Clone? ==> ans.tid !in s.tracees)
    ensures var r := Handle(Dispatched(s, e, p, next), p, Caught(s, p, next), ans);
            ResOk(r, p)
  {
    if s.tracees[p].stop.AtExit? {
      FreshDispatch(s, e, p, next, ans);
    } else {
      SecondDispatch(s, e, p, next, ans);
    }
  }

  lemma FreshDispatch(s: State, e: EvId, p: Pid, next: Call, ans: Answer)
    requires Inv(s) && IsNext(s.events, e) && s.events[e].what == Before(p)
    requires p in s.tracees && s.tracees[p].stop.AtExit?
    requires CallAllowed(s, p, next, ans) && (next.Clone? ==> ans.tid !in s.tracees)
    ensures ResOk(Handle(Dispatched(s, e, p, next), p, next, ans), p)
  {
    var d := Dispatched(s, e, p, next);
    DispatchedActive(s, e, p, next);
    StillAllowed(s, d, p, next, ans);
    HandleOk(d, p, next, ans);
  }

  /** Only the clock calls are dispatched at the exit of a call. */
  lemma SecondDispatch(s: State, e: EvId, p: Pid, next: Call, ans: Answer)
    requires Inv(s) && IsNext(s.events, e) && s.events[e].what == Before(p)
    requires p in s.tracees && s.tracees[p].stop.AtEntry? && s.tracees[p].stop != AtEntry(Exit)
    ensures ResOk(Handle(Dispatched(s, e, p, next), p, s.tracees[p].stop.call, ans), p)
  {
    DispatchedActive(s, e, p, next);
    ParkedInClock(s, e, p);
    ClockAgain(Dispatched(s, e, p, next), p, s.tracees[p].stop.call, ans);
  }

  lemma ParkedInClock(s: State, e: EvId, p: Pid)
    requires Core(s) && e in s.events && s.events[e].what == Before(p)
    requires p in s.tracees && s.tracees[p].stop.AtEntry? && s.tracees[p].stop != AtEntry(Exit)
    ensures TwoDispatches(s.tracees[p].stop.call)
  {
    assert EventOk(s.tracees, s.ops, e, s.events[e].what);
    assert ContOk(s.events, s.ops, s.net, p, s.tracees[p]);
  }

  lemma ClockAgain(d: State, p: Pid, c: Call, ans: Answer)
    requires Active(d, {p}) && p in d.tracees && d.tracees[p].stop.AtExit? && TwoDispatches(c)
    ensures ResOk(Handle(d, p, c, ans), p)
  {
    StoreOnlyOk(d, p, c, ClockReading(d, c));
  }

  // ---- Steps ---------------------------------------------------------------------------------

  /** Time goes on, up to the next scheduled event. */
  ghost predicate Reaches(s: State, at: nat) {
    at >= s.now && forall e :: e in s.events ==> s.events[e].at >= at
  }

  lemma TimePasses(s: State, at: nat)
    requires Inv(s) && Reaches(s, at)
    ensures Inv(s.(now := at))
  {
    var t := s.(now := at);
    forall q | q in t.tracees ensures ContOk(t.events, t.ops, t.net, q, t.tracees[q]) {
      assert ContOk(s.events, s.ops, s.net, q, s.tracees[q]);
    }
  }

  /** The call an event leads to, if it dispatches a thread. */
  function CaughtBy(s: State, e: EvId, next: Call): Option<Call> {
    if e in s.events && s.events[e].what.Before? && s.events[e].what.pid in s.tracees &&
       s.tracees[s.events[e].what.pid].stop != AtEntry(Exit)
    then Some(Caught(s, s.events[e].what.pid, next))
    else None
  }

  /** What the event queue, ns-3 and the kernel guarantee. */
  ghost predicate Enabled(s: State, step: Step) {
    match step.act
    case Fire(e, next) =>
      IsNext(s.events, e) && (CaughtBy(s, e, next) == Some(Clone) ==> step.ans.tid !in s.tracees)
    case Data(at, sid, rx) => Reaches(s, at) && rx > 0 && TakesData(s.net, sid)
    case Space(at, sid, tx) => Reaches(s, at) && sid < |s.net.socks| && tx > 0
    case Connection(at, sid) => Reaches(s, at) && TakesConnections(s.net, sid)
    case ConnectEnds(at, sid, ok) => Reaches(s, at) && sid < |s.net.socks| && s.net.socks[sid].connecting
  }

  /**
   * What the engine relies on without enforcing it: the conditions on calls, and that the closures
   * which answer the member pid find there the thread they belong to.
   */
  ghost predicate Disciplined(s: State, step: Step) {
    match step.act
    case Fire(e, next) =>
      CaughtBy(s, e, next).Some? ==> CallAllowed(s, s.events[e].what.pid, CaughtBy(s, e, next).value, step.ans)
    case Data(_, sid, _) =>
      sid < |s.net.socks| && !RecvIdle(s.ops, s.net.socks[sid].recv) && s.net.socks[sid].recv.SelectRecv? ==>
        s.net.socks[sid].recv.op < |s.ops| && s.pid == s.ops[s.net.socks[sid].recv.op].pid
    case Connection(_, sid) =>
      sid < |s.net.socks| && s.net.socks[sid].accept.AcceptWait? ==> AcceptServes(s, s.net.socks[sid].accept.pid)
    case _ => true
  }

  lemma BeforeKeeps(s: State, e: EvId, p: Pid, next: Call, ans: Answer)
    requires Inv(s) && IsNext(s.events, e) && s.events[e].what == Before(p)
    requires Enabled(s, Step(Fire(e, next), ans)) && Disciplined(s, Step(Fire(e, next), ans))
    ensures var t := Next(s, Step(Fire(e, next), ans)); t.halted || Inv(t)
  {
    assert EventOk(s.tracees, s.ops, e, s.events[e].what);
    if s.tracees[p].stop == AtEntry(Exit) {
      var t := Tracee(AtEntry(Exit), InFlight);
      PopKeeps(s, e, p, t);
      ThreadLeaves(Popped(s, e, p, t), p);
      assert s.tracees[p := t] - {p} == s.tracees - {p};
      PidPollKeeps(Popped(s, e, p, t).(tracees := s.tracees - {p}), p, s.poll, {});
    } else {
      DispatchKeeps(s, e, p, next, ans);
      StatusOk(Handle(Dispatched(s, e, p, next), p, Caught(s, p, next), ans), p);
    }
  }

  lemma TimeoutKeeps(s: State, e: EvId, next: Call, ans: Answer)
    requires Inv(s) && IsNext(s.events, e) && s.events[e].what.SelectTimeout?
    ensures Inv(Next(s, Step(Fire(e, next), ans)))
  {
    var at, op := s.events[e].at, s.events[e].what.op;
    assert EventOk(s.tracees, s.ops, e, s.events[e].what);
    TimePasses(s, at);
    FinishKeeps(s.(now := at), op, SelectTimedOut, ans.stray, {});
    TimeoutForm(s, at, e, op, ans);
  }

  /** The timeout that has just fired is what the closure cancels. */
  lemma TimeoutForm(s: State, at: nat, e: EvId, op: OpId, ans: Answer)
    requires op < |s.ops| && s.ops[op].timeout == Some(e)
    ensures FinishSelect(s.(now := at, events := s.events - {e}), op, s.ops[op].pid, SelectTimedOut, ans.stray) ==
            FinishSelect(s.(now := at), op, s.ops[op].pid, SelectTimedOut, ans.stray)
  {
    assert s.events - {e} - {e} == s.events - {e};
  }

  lemma SleepKeeps(s: State, e: EvId, next: Call, ans: Answer)
    requires Inv(s) && IsNext(s.events, e) && s.events[e].what.SleepDone?
    ensures Inv(Next(s, Step(Fire(e, next), ans)))
  {
    var p, s1 := s.events[e].what.pid, s.(now := s.events[e].at, events := s.events - {e});
    assert EventOk(s.tracees, s.ops, e, s.events[e].what);
    assert ContOk(s.events, s.ops, s.net, p, s.tracees[p]);
    PopKeeps(s, e, p, s.tracees[p].(cont := InFlight));
    WakeKeeps(s1, p, s.net, Value(0), ans.stray);
  }

  lemma CleanupFires(s: State, e: EvId, next: Call, ans: Answer)
    requires Inv(s) && IsNext(s.events, e) && s.events[e].what.SocketCleanup?
    ensures Inv(Next(s, Step(Fire(e, next), ans)))
  {
    var t := s.(now := s.events[e].at, events := s.events - {e});
    forall q | q in t.tracees ensures ContOk(t.events, t.ops, t.net, q, t.tracees[q]) {
      assert ContOk(s.events, s.ops, s.net, q, s.tracees[q]);
    }
    forall f | f in t.events ensures EventOk(t.tracees, t.ops, f, t.events[f].what) {
      assert EventOk(s.tracees, s.ops, f, s.events[f].what);
    }
  }

  lemma FireKeeps(s: State, e: EvId, next: Call, ans: Answer)
    requires Inv(s) && Enabled(s, Step(Fire(e, next), ans)) && Disciplined(s, Step(Fire(e, next), ans))
    ensures var t := Next(s, Step(Fire(e, next), ans)); t.halted || Inv(t)
  {
    match s.events[e].what
    case Before(p) => BeforeKeeps(s, e, p, next, ans);
    case SelectTimeout(_) => TimeoutKeeps(s, e, next, ans);
    case SleepDone(_) => SleepKeeps(s, e, next, ans);
    case SocketCleanup(_) => CleanupFires(s, e, next, ans);
  }

  /** One step: the invariant holds again, or the simulator has stopped. */
  lemma StepKeeps(s: State, step: Step)
    requires Inv(s) && Enabled(s, step) && Disciplined(s, step)
    ensures Next(s, step).halted || Inv(Next(s, step))
  {
    match step.act
    case Fire(e, next) => FireKeeps(s, e, next, step.ans);
    case Data(at, sid, rx) =>
      TimePasses(s, at);
      DataKeeps(s.(now := at), sid, rx, step.ans);
    case Space(at, sid, tx) =>
      TimePasses(s, at);
      SpaceKeeps(s.(now := at), sid, tx, step.ans);
    case Connection(at, sid) =>
      TimePasses(s, at);
      if !(s.net.socks[sid].accept.AcceptWait? && s.net.fds.available == {}) {
        ConnectionKeeps(s.(now := at), sid, step.ans);
      }
    case ConnectEnds(at, sid, ok) =>
      TimePasses(s, at);
      ConnectEndKeeps(s.(now := at), sid, ok, step.ans);
  }

  // ---- Runs ------------------------------------------------------------------------------------

  /** A run that the environment can produce. */
  ghost predicate Possible(s: State, steps: seq<Step>)
    decreases steps
  {
    steps == [] || s.halted || (Enabled(s, steps[0]) && Possible(Next(s, steps[0]), steps[1..]))
  }

  /** Every step of the run is one the environment can take and the engine can bear. */
  ghost predicate Sound(s: State, steps: seq<Step>)
    decreases steps
  {
    steps == [] || s.halted ||
    (Enabled(s, steps[0]) && (Next(s, steps[0]).halted || Disciplined(s, steps[0])) &&
     Sound(Next(s, steps[0]), steps[1..]))
  }

  lemma {:induction false} RunKeeps(s: State, steps: seq<Step>)
    requires Inv(s) && Sound(s, steps)
    ensures RunAll(s, steps).halted || Inv(RunAll(s, steps))
    decreases steps
  {
    if steps != [] {
      if !Next(s, steps[0]).halted {
        StepKeeps(s, steps[0]);
        RunKeeps(Next(s, steps[0]), steps[1..]);
      } else {
        assert RunAll(Next(s, steps[0]), steps[1..]) == Next(s, steps[0]);
      }
    }
  }

  lemma InitialInv(app: App, p: Pid)
    ensures Inv(Initial(app, p))
  {
    var s := Initial(app, p);
    assert s.net.fds.available == AllFds();
  }

  /** From the start of the application every sound run keeps every live thread resumable exactly once. */
  lemma RunsAreSafe(app: App, p: Pid, steps: seq<Step>)
    requires Sound(Initial(app, p), steps)
    ensures var s := RunAll(Initial(app, p), steps); s.halted || Inv(s)
  {
    InitialInv(app, p);
    RunKeeps(Initial(app, p), steps);
  }

  /** There are sound runs: the application's first call, whatever it is, can be dispatched. */
  lemma FirstCallIsSound(app: App, p: Pid, next: Call, ans: Answer)
    requires next.Clone? ==> ans.tid != p
    ensures Sound(Initial(app, p), [Step(Fire(0, next), ans)])
    ensures CaughtBy(Initial(app, p), 0, next) == Some(next)
  {
    var s, step := Initial(app, p), Step(Fire(0, next), ans);
    assert CallAllowed(s, p, next, ans);
    assert Sound(Next(s, step), [step][1..]);
  }
}
