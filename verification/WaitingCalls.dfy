/**
 * Calls that wait, from their dispatch to their answer: whatever other threads do in between, a receive gets its data,
 * an accept its connection, a connect the end of its attempt, and a sleep its time.
 */
module WaitingCalls {
  import opened Sim
  import opened SimInv
  import opened SimHandlers
  import opened SimRun
  import opened VirtualTime
  import opened Answers
  import opened Transfers
  import PD = PollDetector

  /** The step is one that thread `p`, in call `c`, may be answered by. */
  ghost predicate Brings(s: State, step: Step, p: Pid, c: Call) {
    match c
    case Read(fd, _) => step.act.Data? && IsFdOf(s.net.fds.sockets, fd, step.act.sid)
    case RecvFrom(fd, _) => step.act.Data? && IsFdOf(s.net.fds.sockets, fd, step.act.sid)
    case Connect(fd, _) => step.act.ConnectEnds? && IsFdOf(s.net.fds.sockets, fd, step.act.sid)
    case Accept(_) =>
      step.act.Connection? && step.act.sid < |s.net.socks| && s.net.socks[step.act.sid].accept.AcceptWait? &&
      s.net.socks[step.act.sid].accept.pid == p
    case _ => false
  }

  /** No step of the run is. */
  ghost predicate NothingYet(s: State, steps: seq<Step>, p: Pid, c: Call)
    decreases steps
  {
    steps == [] || s.halted || (!Brings(s, steps[0], p, c) && NothingYet(Next(s, steps[0]), steps[1..], p, c))
  }

  /** The thread waits in the call, for what happens to its descriptor. */
  ghost predicate In(s: State, p: Pid, c: Call) {
    p in s.tracees && s.tracees[p].stop == AtEntry(c) &&
    match c
    case Read(fd, _) => s.tracees[p].cont == InRecv(fd)
    case RecvFrom(fd, _) => s.tracees[p].cont == InRecv(fd)
    case Connect(fd, _) => s.tracees[p].cont == InConnect(fd)
    case Accept(fd) => s.tracees[p].cont == InAccept(fd)
    case _ => false
  }

  lemma StaysIn(s: State, step: Step, p: Pid, c: Call)
    requires Inv(s) && Enabled(s, step) && Disciplined(s, step) && !Next(s, step).halted
    requires In(s, p, c) && !Brings(s, step, p, c)
    ensures Inv(Next(s, step)) && In(Next(s, step), p, c)
  {
    StepKeeps(s, step);
    OnlyItsSourceMoves(s, step, p);
  }

  lemma {:induction false} WaitsThrough(s: State, steps: seq<Step>, p: Pid, c: Call)
    requires Inv(s) && Sound(s, steps) && !RunAll(s, steps).halted && In(s, p, c) && NothingYet(s, steps, p, c)
    ensures Inv(RunAll(s, steps)) && In(RunAll(s, steps), p, c)
    decreases steps
  {
    if steps != [] {
      StaysIn(s, steps[0], p, c);
      WaitsThrough(Next(s, steps[0]), steps[1..], p, c);
    }
  }

  /** From a dispatch that leaves the thread waiting. */
  ghost predicate WaitsFrom(s: State, e: EvId, p: Pid, c: Call, ans: Answer, steps: seq<Step>) {
    Enters(s, e, p, c, ans) && Disciplined(s, Step(Fire(e, c), ans)) &&
    var t := Then(s, e, c, ans);
    !t.halted && Sound(t, steps) && NothingYet(t, steps, p, c) && !RunAll(t, steps).halted
  }

  lemma StillIn(s: State, e: EvId, p: Pid, c: Call, ans: Answer, steps: seq<Step>)
    requires WaitsFrom(s, e, p, c, ans, steps) && In(Then(s, e, c, ans), p, c)
    ensures Inv(RunAll(Then(s, e, c, ans), steps)) && In(RunAll(Then(s, e, c, ans), steps), p, c)
  {
    StepKeeps(s, Step(Fire(e, c), ans));
    WaitsThrough(Then(s, e, c, ans), steps, p, c);
  }

  /** Answered at time `at`: at the exit of the call, and dispatched again after processing time and poll-loop delay. */
  ghost predicate AnsweredAt(u: State, v: State, p: Pid, at: nat, result: Result) {
    !v.halted && v.now == at && v.tracees == u.tracees[p := Tracee(AtExit(result), Resumes(u.nextEvent))] &&
    v.events == u.events[u.nextEvent := Event(at + u.app.processing + PD.Delay(u.poll.steps), Before(p))]
  }

  /** The clock is what the event says, whatever it was before. */
  lemma AnsweredFrom(u: State, v: State, p: Pid, at: nat, result: Result)
    requires AnsweredAt(u.(now := at), v, p, at, result)
    ensures AnsweredAt(u, v, p, at, result)
  {
  }

  // ---- Receiving ----------------------------------------------------------------------------------

  /** The first data on the socket answer the receive, with as many bytes as ns-3 gives. */
  lemma DataAnswerReceive(s: State, e: EvId, p: Pid, c: Call, ans: Answer, steps: seq<Step>, at: nat, sid: SockId,
                          rx: nat, ans': Answer)
    requires WaitsFrom(s, e, p, c, ans, steps) && Receives(s.net, c)
    requires Behind(s.net, c.fd).rx == 0 && c.fd !in s.net.fds.nonblocking
    requires var u := RunAll(Then(s, e, c, ans), steps);
             IsFdOf(u.net.fds.sockets, c.fd, sid) && Enabled(u, Step(Data(at, sid, rx), ans'))
    ensures var u := RunAll(Then(s, e, c, ans), steps);
            var v := Next(u, Step(Data(at, sid, rx), ans'));
            In(u, p, c) && AnsweredAt(u, v, p, at, Value(ans'.ret)) && sid < |u.net.socks| &&
            v.net == u.net.(socks := u.net.socks[sid := u.net.socks[sid].(rx := ans'.rxAfter, recv := NoRecv)])
  {
    ReceiveAnswers(s, e, p, c, ans);
    StillIn(s, e, p, c, ans, steps);
    ReceiveEnds(RunAll(Then(s, e, c, ans), steps), p, c, at, sid, rx, ans');
  }

  lemma ReceiveEnds(u: State, p: Pid, c: Call, at: nat, sid: SockId, rx: nat, ans: Answer)
    requires Inv(u) && In(u, p, c) && (c.Read? || c.RecvFrom?)
    requires IsFdOf(u.net.fds.sockets, c.fd, sid) && Enabled(u, Step(Data(at, sid, rx), ans))
    ensures var v := Next(u, Step(Data(at, sid, rx), ans));
            AnsweredAt(u, v, p, at, Value(ans.ret)) && sid < |u.net.socks| &&
            v.net == u.net.(socks := u.net.socks[sid := u.net.socks[sid].(rx := ans.rxAfter, recv := NoRecv)])
  {
    assert ContOk(u.events, u.ops, u.net, p, u.tracees[p]);
    DataStep(u, at, sid, rx, ans);
    WokenByData(u.(now := at), p, sid, rx, ans);
    AnsweredFrom(u, OnData(u.(now := at), sid, rx, ans), p, at, Value(ans.ret));
  }

  lemma DataStep(u: State, at: nat, sid: SockId, rx: nat, ans: Answer)
    requires sid < |u.net.socks|
    ensures Next(u, Step(Data(at, sid, rx), ans)) == OnData(u.(now := at), sid, rx, ans)
  {
  }

  lemma WokenByData(u: State, p: Pid, sid: SockId, rx: nat, ans: Answer)
    requires !u.halted && sid < |u.net.socks| && u.net.socks[sid].recv.ReadWait? && u.net.socks[sid].recv.pid == p
    requires p in u.tracees && u.tracees[p].stop.AtEntry?
    ensures var v := OnData(u, sid, rx, ans);
            AnsweredAt(u, v, p, u.now, Value(ans.ret)) &&
            v.net == u.net.(socks := u.net.socks[sid := u.net.socks[sid].(rx := ans.rxAfter, recv := NoRecv)])
  {
    var v := OnData(u, sid, rx, ans);
    assert v.tracees == u.tracees[p := Tracee(AtExit(Value(ans.ret)), Resumes(u.nextEvent))];
    assert v.net.socks == u.net.socks[sid := u.net.socks[sid].(rx := ans.rxAfter, recv := NoRecv)];
  }

  // ---- Connecting ---------------------------------------------------------------------------------

  /** What the program is told: 0 and connected, or -1 and not. */
  ghost predicate ConnectTold(u: State, v: State, p: Pid, at: nat, fd: Fd, ok: bool) {
    AnsweredAt(u, v, p, at, Value(if ok then 0 else -1)) &&
    v.net.fds == if ok then u.net.fds.(connected := u.net.fds.connected + {fd}) else u.net.fds
  }

  /** The end of the attempt answers the connect: success with 0, failure with -1. */
  lemma EndAnswersConnect(s: State, e: EvId, p: Pid, c: Call, ans: Answer, steps: seq<Step>, at: nat, sid: SockId,
                          ok: bool, ans': Answer)
    requires WaitsFrom(s, e, p, c, ans, steps) && c.Connect? && c.fd in s.net.fds.sockets && c.inet &&
             ans.connected.None?
    requires var u := RunAll(Then(s, e, c, ans), steps);
             IsFdOf(u.net.fds.sockets, c.fd, sid) && Enabled(u, Step(ConnectEnds(at, sid, ok), ans'))
    ensures var u := RunAll(Then(s, e, c, ans), steps);
            In(u, p, c) && ConnectTold(u, Next(u, Step(ConnectEnds(at, sid, ok), ans')), p, at, c.fd, ok)
  {
    ConnectStarts(s, e, p, c, ans);
    StillIn(s, e, p, c, ans, steps);
    ConnectEnded(RunAll(Then(s, e, c, ans), steps), p, c, at, sid, ok, ans');
  }

  /** Until then the thread waits, its closure with the socket. */
  lemma ConnectStarts(s: State, e: EvId, p: Pid, c: Call, ans: Answer)
    requires Enters(s, e, p, c, ans) && c.Connect? && c.fd in s.net.fds.sockets && c.inet && ans.connected.None?
    ensures Then(s, e, c, ans) ==
            Answers.Waits(s, e, p, c, InConnect(c.fd),
                          Changed(s.net, c.fd, Attempted(Behind(s.net, c.fd), p, c.fd, ans)))
  {
    WaitsWith(s, e, p, c, ans, InConnect(c.fd), Changed(s.net, c.fd, Attempted(Behind(s.net, c.fd), p, c.fd, ans)));
  }

  lemma ConnectEnded(u: State, p: Pid, c: Call, at: nat, sid: SockId, ok: bool, ans: Answer)
    requires Inv(u) && In(u, p, c) && c.Connect? && IsFdOf(u.net.fds.sockets, c.fd, sid)
    requires Enabled(u, Step(ConnectEnds(at, sid, ok), ans))
    ensures ConnectTold(u, Next(u, Step(ConnectEnds(at, sid, ok), ans)), p, at, c.fd, ok)
  {
    assert ContOk(u.events, u.ops, u.net, p, u.tracees[p]);
    EndStep(u, at, sid, ok, ans);
    WokenByEnd(u.(now := at), p, c.fd, sid, ok, ans);
    AnsweredFrom(u, OnConnect(u.(now := at), sid, ok, ans), p, at, Value(if ok then 0 else -1));
  }

  lemma EndStep(u: State, at: nat, sid: SockId, ok: bool, ans: Answer)
    requires sid < |u.net.socks|
    ensures Next(u, Step(ConnectEnds(at, sid, ok), ans)) == OnConnect(u.(now := at), sid, ok, ans)
  {
  }

  lemma WokenByEnd(u: State, p: Pid, fd: Fd, sid: SockId, ok: bool, ans: Answer)
    requires !u.halted && sid < |u.net.socks| && u.net.socks[sid].connect == ConnectWait(p, fd)
    requires p in u.tracees && u.tracees[p].stop.AtEntry?
    ensures ConnectTold(u, OnConnect(u, sid, ok, ans), p, u.now, fd, ok)
  {
    var v, result := OnConnect(u, sid, ok, ans), Value(if ok then 0 else -1);
    assert v.tracees == u.tracees[p := Tracee(AtExit(result), Resumes(u.nextEvent))];
  }

  /** If ns-3 reports the end before Connect returns, connect answers at once, in the same way. */
  lemma ConnectAnswers(s: State, e: EvId, p: Pid, c: Call, ans: Answer)
    requires Enters(s, e, p, c, ans) && c.Connect?
    ensures c.fd !in s.net.fds.sockets ==> Then(s, e, c, ans) == Told(s, e, p, c, Value(-1), s.net)
    ensures c.fd in s.net.fds.sockets && !c.inet ==> Then(s, e, c, ans).halted
    ensures c.fd in s.net.fds.sockets && c.inet && ans.connected.Some? ==>
              ConnectTold(Answers.Entered(s, e, p, c), Then(s, e, c, ans), p, s.events[e].at, c.fd, ans.connected.value)
  {
    if c.fd !in s.net.fds.sockets {
      TellsWith(s, e, p, c, ans, Value(-1), Failure, s.net);
    } else if !c.inet {
      StopsWith(s, e, p, c, ans);
    } else if ans.connected.Some? {
      EndsInside(s, e, p, c, ans);
    }
  }

  lemma EndsInside(s: State, e: EvId, p: Pid, c: Call, ans: Answer)
    requires Enters(s, e, p, c, ans) && c.Connect? && Known(s.net, c.fd) && c.inet && ans.connected.Some?
    ensures ConnectTold(Answers.Entered(s, e, p, c), Then(s, e, c, ans), p, s.events[e].at, c.fd, ans.connected.value)
  {
    var d := Answers.Entered(s, e, p, c);
    Runs(s, e, p, c, ans);
    InsideForm(d, p, c, ans);
    WokenByEnd(Trying(d, p, c, ans), p, c.fd, s.net.fds.sockets[c.fd], ans.connected.value, ans);
    ToldFrom(d, Trying(d, p, c, ans), Then(s, e, c, ans), p, c.fd, ans.connected.value);
  }

  /** When ns-3's Connect is called. */
  function Trying(d: State, p: Pid, c: Call, ans: Answer): State
    requires c.Connect? && Known(d.net, c.fd)
  {
    var sid := d.net.fds.sockets[c.fd];
    SetCont(SetSock(d, sid, Attempted(d.net.socks[sid], p, c.fd, ans)), p, InConnect(c.fd))
  }

  lemma InsideForm(d: State, p: Pid, c: Call, ans: Answer)
    requires c.Connect? && Known(d.net, c.fd) && c.inet && ans.connected.Some? && p in d.tracees
    ensures var s1 := Trying(d, p, c, ans);
            Handle(d, p, c, ans) == Res(OnConnect(s1, d.net.fds.sockets[c.fd], ans.connected.value, ans), Delayed) &&
            p in s1.tracees && s1 == d.(net := s1.net, tracees := d.tracees[p := s1.tracees[p]]) &&
            s1.net.fds == d.net.fds
  {
  }

  lemma ToldFrom(d: State, s1: State, v: State, p: Pid, fd: Fd, ok: bool)
    requires ConnectTold(s1, v, p, d.now, fd, ok) && p in d.tracees
    requires p in s1.tracees && s1 == d.(net := s1.net, tracees := d.tracees[p := s1.tracees[p]]) &&
             s1.net.fds == d.net.fds
    ensures ConnectTold(d, v, p, d.now, fd, ok)
  {
    var x := Tracee(AtExit(Value(if ok then 0 else -1)), Resumes(d.nextEvent));
    assert s1.tracees[p := x] == d.tracees[p := x];
  }

  // ---- Accepting ----------------------------------------------------------------------------------

  /** A new socket behind `fd`, which was the least free descriptor; what is pending stays pending. */
  ghost predicate TakesNew(n: Net, m: Net, fd: Fd) {
    Opens(n.fds, m.fds, fd, |n.socks|) && m.fds.fakeAccepted == n.fds.fakeAccepted &&
    m.socks == n.socks + [NewSock(0)]
  }

  /**
   * A connection on the listener answers the accept with the least free descriptor, which stands for it from then on.
   */
  lemma ConnectionAnswersAccept(s: State, e: EvId, p: Pid, c: Call, ans: Answer, steps: seq<Step>, at: nat, sid: SockId,
                                new_fd: Fd, ans': Answer)
    requires WaitsFrom(s, e, p, c, ans, steps) && c.Accept? && AcceptMustWait(s.net, c.fd)
    requires var u, step := RunAll(Then(s, e, c, ans), steps), Step(Connection(at, sid), ans');
             IsFdOf(u.net.fds.sockets, c.fd, sid) && Enabled(u, step) && Disciplined(u, step) &&
             LeastFree(u.net.fds, new_fd)
    ensures var u := RunAll(Then(s, e, c, ans), steps);
            var v := Next(u, Step(Connection(at, sid), ans'));
            In(u, p, c) && AnsweredAt(u, v, p, at, Value(new_fd)) && TakesNew(u.net, v.net, new_fd)
  {
    AcceptStarts(s, e, p, c, ans);
    StillIn(s, e, p, c, ans, steps);
    AcceptEnds(RunAll(Then(s, e, c, ans), steps), p, c, at, sid, new_fd, ans');
  }

  lemma AcceptStarts(s: State, e: EvId, p: Pid, c: Call, ans: Answer)
    requires Enters(s, e, p, c, ans) && c.Accept? && AcceptMustWait(s.net, c.fd)
    ensures var k := Behind(s.net, c.fd).(accept := AcceptWait(p, c.fd));
            Then(s, e, c, ans) == Answers.Waits(s, e, p, c, InAccept(c.fd), Changed(s.net, c.fd, k))
  {
    var k := Behind(s.net, c.fd).(accept := AcceptWait(p, c.fd));
    WaitsWith(s, e, p, c, ans, InAccept(c.fd), Changed(s.net, c.fd, k));
  }

  lemma AcceptEnds(u: State, p: Pid, c: Call, at: nat, sid: SockId, new_fd: Fd, ans: Answer)
    requires Inv(u) && In(u, p, c) && c.Accept? && IsFdOf(u.net.fds.sockets, c.fd, sid) && LeastFree(u.net.fds, new_fd)
    requires Enabled(u, Step(Connection(at, sid), ans)) && Disciplined(u, Step(Connection(at, sid), ans))
    ensures var v := Next(u, Step(Connection(at, sid), ans));
            AnsweredAt(u, v, p, at, Value(new_fd)) && TakesNew(u.net, v.net, new_fd)
  {
    assert ContOk(u.events, u.ops, u.net, p, u.tracees[p]);
    ConnectionForm(u, at, sid, ans);
    WokenByConnection(u.(now := at), p, sid, new_fd, ans);
    AnsweredFrom(u, OnConnection(u.(now := at), sid, ans), p, at, Value(new_fd));
  }

  /**
   * The closure of an accept stays with its listener: a later accept of the thread, on another listener, is answered by
   * a connection on the first as well, and cannot tell the difference. Its own closure stays, too.
   */
  lemma OtherListenerAnswersAccept(u: State, p: Pid, c: Call, at: nat, sid: SockId, other: Fd, new_fd: Fd, ans: Answer)
    requires Inv(u) && In(u, p, c) && c.Accept? && IsFdOf(u.net.fds.sockets, other, sid) && other != c.fd
    requires Enabled(u, Step(Connection(at, sid), ans)) && Disciplined(u, Step(Connection(at, sid), ans))
    requires u.net.socks[sid].accept.AcceptWait? && u.net.socks[sid].accept.pid == p && LeastFree(u.net.fds, new_fd)
    ensures var v := Next(u, Step(Connection(at, sid), ans));
            AnsweredAt(u, v, p, at, Value(new_fd)) && TakesNew(u.net, v.net, new_fd) &&
            Known(v.net, c.fd) && Behind(v.net, c.fd).accept == AcceptWait(p, c.fd)
  {
    assert ContOk(u.events, u.ops, u.net, p, u.tracees[p]);
    ConnectionForm(u, at, sid, ans);
    WokenByConnection(u.(now := at), p, sid, new_fd, ans);
    AnsweredFrom(u, OnConnection(u.(now := at), sid, ans), p, at, Value(new_fd));
  }

  lemma ConnectionForm(u: State, at: nat, sid: SockId, ans: Answer)
    requires sid < |u.net.socks|
    ensures Next(u, Step(Connection(at, sid), ans)) == OnConnection(u.(now := at), sid, ans)
  {
  }

  lemma WokenByConnection(u: State, p: Pid, sid: SockId, new_fd: Fd, ans: Answer)
    requires !u.halted && FdOk(u.net) && sid < |u.net.socks| && u.net.socks[sid].accept.AcceptWait?
    requires u.net.socks[sid].accept.pid == p && u.pid == p && p in u.tracees && u.tracees[p].stop.AtEntry?
    requires LeastFree(u.net.fds, new_fd)
    ensures var v := OnConnection(u, sid, ans);
            AnsweredAt(u, v, p, u.now, Value(new_fd)) && TakesNew(u.net, v.net, new_fd)
  {
    LeastIs(u.net.fds, new_fd);
    var v := OnConnection(u, sid, ans);
    assert v.tracees == u.tracees[p := Tracee(AtExit(Value(new_fd)), Resumes(u.nextEvent))];
  }

  // ---- Sleeping -----------------------------------------------------------------------------------

  /** Thread `p` sleeps until `due`, when event `g` wakes it. */
  ghost predicate Sleeps(s: State, p: Pid, c: Call, g: EvId, due: nat) {
    g in s.events && s.events[g] == Event(due, SleepDone(p)) && p in s.tracees &&
    s.tracees[p] == Tracee(AtEntry(c), InSleep(g))
  }

  /** Event `g` has been used up, and the thread been told 0. */
  ghost predicate Woken(u: State, v: State, p: Pid, g: EvId, due: nat) {
    AnsweredAt(u.(events := u.events - {g}), v, p, due, Value(0))
  }

  /** In nanoseconds. */
  function WakesAt(at: nat, c: Call): nat
    requires c.NanoSleep?
  {
    at + c.sec * 1000000000 + c.nsec
  }

  lemma SleepStays(s: State, step: Step, p: Pid, c: Call, g: EvId, due: nat)
    requires Inv(s) && Enabled(s, step) && Disciplined(s, step) && !Next(s, step).halted && Sleeps(s, p, c, g, due)
    requires !(step.act.Fire? && step.act.e == g)
    ensures Inv(Next(s, step)) && Sleeps(Next(s, step), p, c, g, due)
  {
    var t := Next(s, step);
    OnlyItsSourceMoves(s, step, p);
    StepKeeps(s, step);
    StepOld(s, step);
    assert ContOk(t.events, t.ops, t.net, p, t.tracees[p]);
  }

  lemma {:induction false} SleepsThrough(s: State, steps: seq<Step>, p: Pid, c: Call, g: EvId, due: nat)
    requires Inv(s) && Sound(s, steps) && Avoids(steps, g) && !RunAll(s, steps).halted && Sleeps(s, p, c, g, due)
    ensures Inv(RunAll(s, steps)) && Sleeps(RunAll(s, steps), p, c, g, due)
    decreases steps
  {
    if steps != [] {
      SleepStays(s, steps[0], p, c, g, due);
      SleepsThrough(Next(s, steps[0]), steps[1..], p, c, g, due);
    }
  }

  /**
   * nanosleep wakes exactly the seconds and nanoseconds asked for after its dispatch, neither earlier nor later, and is
   * told 0 then.
   */
  lemma SleepsExactly(s: State, e: EvId, p: Pid, c: Call, ans: Answer, steps: seq<Step>, next: Call, ans': Answer)
    requires Enters(s, e, p, c, ans) && c.NanoSleep?
    requires var t := Then(s, e, c, ans); Sound(t, steps) && Avoids(steps, s.nextEvent) && !RunAll(t, steps).halted
    ensures var u, due := RunAll(Then(s, e, c, ans), steps), WakesAt(s.events[e].at, c);
            Sleeps(u, p, c, s.nextEvent, due) &&
            Woken(u, Next(u, Step(Fire(s.nextEvent, next), ans')), p, s.nextEvent, due)
  {
    var due := WakesAt(s.events[e].at, c);
    SleepGoesOn(s, e, p, c, ans, steps, due);
    WokenByTime(RunAll(Then(s, e, c, ans), steps), p, c, s.nextEvent, due, next, ans');
  }

  lemma SleepGoesOn(s: State, e: EvId, p: Pid, c: Call, ans: Answer, steps: seq<Step>, due: nat)
    requires Enters(s, e, p, c, ans) && c.NanoSleep? && due == WakesAt(s.events[e].at, c)
    requires var t := Then(s, e, c, ans); Sound(t, steps) && Avoids(steps, s.nextEvent) && !RunAll(t, steps).halted
    ensures Sleeps(RunAll(Then(s, e, c, ans), steps), p, c, s.nextEvent, due)
  {
    SleepBegins(s, e, p, c, ans, due);
    StepKeeps(s, Step(Fire(e, c), ans));
    SleepsThrough(Then(s, e, c, ans), steps, p, c, s.nextEvent, due);
  }

  lemma SleepBegins(s: State, e: EvId, p: Pid, c: Call, ans: Answer, due: nat)
    requires Enters(s, e, p, c, ans) && c.NanoSleep? && due == WakesAt(s.events[e].at, c)
    ensures Disciplined(s, Step(Fire(e, c), ans)) && !Then(s, e, c, ans).halted &&
            Sleeps(Then(s, e, c, ans), p, c, s.nextEvent, due)
  {
    Runs(s, e, p, c, ans);
  }

  lemma WokenByTime(u: State, p: Pid, c: Call, g: EvId, due: nat, next: Call, ans: Answer)
    requires !u.halted && Sleeps(u, p, c, g, due)
    ensures Woken(u, Next(u, Step(Fire(g, next), ans)), p, g, due)
  {
    var v := Next(u, Step(Fire(g, next), ans));
    assert v.tracees == u.tracees[p := Tracee(AtExit(Value(0)), Resumes(u.nextEvent))];
  }
}
