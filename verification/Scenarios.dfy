/**
 * Runs from the start of an application that show each condition on the engine's environment to be one that programs
 * do violate: every step before the last is allowed, the last is one the environment can take, and it loses a thread.
 */
module Scenarios {
  import opened Base
  import opened NetlinkWire
  import opened Sim
  import opened SimInv
  import opened SimHandlers
  import opened SimSelect
  import opened SimRun
  import opened NetlinkCodec
  import opened Resumption
  import opened Descriptors
  import Exactness
  import EE = EndToEnd
  import PD = PollDetector

  // ---- Runs step by step ------------------------------------------------------------------------

  /** An application that may quit, takes no time, and is not watched for poll loops. */
  function Demo(): App {
    App(true, 0, false, [])
  }

  /** ns-3 and the kernel answer zero, an attempt to connect ends as told, and a clone makes thread `q`. */
  function Ans(q: Pid, connected: Option<bool>): Answer {
    Answer(0, 0, 0, connected, false, q, Exit)
  }

  /** ns-3 refuses. */
  function Refusal(q: Pid): Answer {
    Answer(-1, 0, 0, None, false, q, Exit)
  }

  /** Thread dispatches by event `e`. */
  function Run(e: EvId, c: Call, q: Pid): Step {
    Step(Fire(e, c), Ans(q, None))
  }

  /** The steps lead from the start of the application with thread `p` to state `s`, and are sound. */
  ghost predicate Reached(p: Pid, steps: seq<Step>, s: State) {
    Sound(Initial(Demo(), p), steps) && RunAll(Initial(Demo(), p), steps) == s && !s.halted && Inv(s)
  }

  lemma Start(p: Pid)
    ensures Reachable(p, Initial(Demo(), p))
  {
    InitialInv(Demo(), p);
    assert Reached(p, [], Initial(Demo(), p));
  }

  lemma {:induction false} SoundSnoc(s: State, steps: seq<Step>, step: Step)
    requires Sound(s, steps)
    requires var t := RunAll(s, steps); !t.halted && Enabled(t, step) && Disciplined(t, step)
    ensures Sound(s, steps + [step]) && RunAll(s, steps + [step]) == Next(RunAll(s, steps), step)
    decreases steps
  {
    var all := steps + [step];
    if steps == [] {
      assert all[1..] == [];
    } else {
      assert all[1..] == steps[1..] + [step] && all[0] == steps[0];
      SoundSnoc(Next(s, steps[0]), steps[1..], step);
    }
  }

  /** The step is one the environment can take and the engine can bear. */
  ghost predicate Goes(s: State, step: Step, t: State) {
    Enabled(s, step) && Disciplined(s, step) && Next(s, step) == t && !t.halted
  }

  ghost predicate Reachable(p: Pid, s: State) {
    exists steps :: Reached(p, steps, s)
  }

  lemma Then(p: Pid, s: State, step: Step, t: State)
    requires Reachable(p, s) && Goes(s, step, t)
    ensures Reachable(p, t)
  {
    var steps :| Reached(p, steps, s);
    SoundSnoc(Initial(Demo(), p), steps, step);
    StepKeeps(s, step);
    assert Reached(p, steps + [step], t);
  }

  /** A reachable, healthy state and a step that the environment can take, after which the simulator is not healthy. */
  ghost predicate Breaks(p: Pid, s: State, step: Step) {
    Reachable(p, s) && Inv(s) && Healthy(s) && Enabled(s, step) && !Next(s, step).halted && !Healthy(Next(s, step))
  }

  lemma Undisciplined(p: Pid, s: State, step: Step)
    requires Reachable(p, s) && Enabled(s, step) && !Disciplined(s, step) && !Next(s, step).halted
    ensures Breaks(p, s, step)
  {
    Exactness.StepExact(s, step);
    InvHealthy(s);
  }

  // ---- Dispatches ---------------------------------------------------------------------------------

  /** Thread `p` has been dispatched for call `c` and is being served. */
  function Entered(s: State, e: EvId, p: Pid, c: Call): State
    requires e in s.events
  {
    s.(pid := p, now := s.events[e].at, events := s.events - {e},
       tracees := s.tracees[p := Tracee(AtEntry(c), InFlight)])
  }

  ghost predicate Dispatches(s: State, e: EvId, p: Pid) {
    s.app == Demo() && s.poll == PD.FRESH && !s.halted && e in s.events && s.events[e].what == Before(p) &&
    p in s.tracees && s.tracees[p].stop.AtExit?
  }

  lemma CallStep(s: State, e: EvId, p: Pid, c: Call, ans: Answer)
    requires Dispatches(s, e, p)
    ensures var r := Handle(Entered(s, e, p, c), p, c, ans);
            CaughtBy(s, e, c) == Some(c) && Next(s, Step(Fire(e, c), ans)) == ProcessStatusCode(r.s, r.code, p)
  {
    EE.DispatchForm(s, e, c, ans);
  }

  /** Thread `p` has been answered and is dispatched again at the same time. */
  function Answered'(s: State, e: EvId, p: Pid, n: Net, result: Result): State
    requires e in s.events
  {
    var at := s.events[e].at;
    s.(pid := p, now := at, events := (s.events - {e})[s.nextEvent := Event(at, Before(p))],
       nextEvent := s.nextEvent + 1,
       tracees := s.tracees[p := Tracee(AtExit(result), Resumes(s.nextEvent))], net := n)
  }

  lemma AnswerStep(s: State, e: EvId, p: Pid, c: Call, ans: Answer, n: Net, result: Result, code: Code)
    requires Dispatches(s, e, p) && (code == Success || code == Failure)
    requires Handle(Entered(s, e, p, c), p, c, ans) == Answered(Entered(s, e, p, c).(net := n), p, result, code, ans)
    ensures Next(s, Step(Fire(e, c), ans)) == Answered'(s, e, p, n, result)
  {
    CallStep(s, e, p, c, ans);
    var t, u := Entered(s, e, p, c), Next(s, Step(Fire(e, c), ans));
    assert u.tracees == Answered'(s, e, p, n, result).tracees;
    assert NextDispatch(t) == s.events[e].at;
  }

  // ---- The first calls ------------------------------------------------------------------------------

  const FD: Fd := 100

  lemma FirstFd()
    ensures AllFds() != {} && Least(AllFds()) == FD
  {
    assert FD in AllFds();
  }

  /** One socket behind descriptor 100. */
  function SockNet(connected: bool, listening: bool, k: Sock): Net {
    Net(FdTable(AllFds() - {FD}, map[FD := 0], map[], {}, {FD}, if connected then {FD} else {},
                if listening then {FD} else {}, {}, map[]), [k], [])
  }

  function NlNet(q: Nl): Net {
    Net(FdTable(AllFds() - {FD}, map[], map[FD := 0], {}, {}, {}, {}, {}, map[]), [], [q])
  }

  function At(pid: Pid, now: nat, events: map<EvId, Event>, nextEvent: EvId, tracees: map<Pid, Tracee>,
              ops: seq<SelectOp>, n: Net): State
  {
    State(Demo(), pid, PD.FRESH, now, false, events, nextEvent, tracees, ops, n, [])
  }

  /** `p` has opened its first socket. */
  function Opened(p: Pid, n: Net): State {
    At(p, 0, map[1 := Event(0, Before(p))], 2, map[p := Tracee(AtExit(Value(FD)), Resumes(1))], [], n)
  }

  function StreamCall(): Call { Socket(Inet, SockType.Stream, false) }

  function NetlinkCall(): Call { Socket(NetlinkFamily, Raw, true) }

  predicate Opening(p: Pid, c: Call, n: Net) {
    (c == StreamCall() && n == SockNet(false, false, FRESH_SOCK)) || (c == NetlinkCall() && n == NlNet(Nl(p, [], NoNl)))
  }

  lemma OpensNet(p: Pid, c: Call, n: Net)
    requires Opening(p, c, n)
    ensures var n0 := Initial(Demo(), p).net;
            n0.fds.available == AllFds() && n0.fds.available != {} &&
            n == if c.family == Inet then WithSocket(n0, c.kind, 0) else WithNetlink(n0, p)
  {
    FirstFd();
  }

  lemma OpenStep(p: Pid, q: Pid, c: Call, n: Net)
    requires Opening(p, c, n)
    ensures Next(Initial(Demo(), p), Run(0, c, q)) == Answered'(Initial(Demo(), p), 0, p, n, Value(FD))
  {
    FirstFd();
    OpensNet(p, c, n);
    AnswerStep(Initial(Demo(), p), 0, p, c, Ans(q, None), n, Value(FD), Success);
  }

  lemma OpenForm(p: Pid, n: Net)
    ensures Answered'(Initial(Demo(), p), 0, p, n, Value(FD)) == Opened(p, n)
  {
  }

  lemma OpenGoes(p: Pid, q: Pid, c: Call, n: Net)
    requires Opening(p, c, n)
    ensures Goes(Initial(Demo(), p), Run(0, c, q), Opened(p, n))
  {
    OpenStep(p, q, c, n);
    OpenForm(p, n);
  }

  // ---- Two threads ----------------------------------------------------------------------------------

  /** `p` has made a socket and `q`; both are scheduled, `p` at once and `q` 100 nanoseconds later. */
  function Two(p: Pid, q: Pid, n: Net): State {
    At(p, 0, map[2 := Event(100, Before(q)), 3 := Event(0, Before(p))], 4,
       map[p := Tracee(AtExit(Value(q)), Resumes(3)), q := Tracee(AtExit(Kernel), Resumes(2))], [], n)
  }

  lemma CloneGoes(p: Pid, q: Pid, n: Net)
    requires p != q
    ensures Goes(Opened(p, n), Run(1, Clone, q), Two(p, q, n))
  {
    CallStep(Opened(p, n), 1, p, Clone, Ans(q, None));
    var t := Next(Opened(p, n), Run(1, Clone, q));
    assert t.tracees == Two(p, q, n).tracees && t.events == Two(p, q, n).events;
  }

  lemma TwoReached(p: Pid, q: Pid, c: Call, n: Net)
    requires Opening(p, c, n) && p != q
    ensures Reachable(p, Two(p, q, n))
  {
    Start(p);
    OpenGoes(p, q, c, n);
    CloneGoes(p, q, n);
    Then(p, Initial(Demo(), p), Run(0, c, q), Opened(p, n));
    Then(p, Opened(p, n), Run(1, Clone, q), Two(p, q, n));
  }

  // ---- The first thread waits -------------------------------------------------------------------------

  /** `p` waits in call `c`; `q` is still to be dispatched. */
  function Waits(p: Pid, q: Pid, n: Net, ops: seq<SelectOp>, c: Call, k: Cont): State {
    At(p, 0, map[2 := Event(100, Before(q))], 4,
       map[p := Tracee(AtEntry(c), k), q := Tracee(AtExit(Kernel), Resumes(2))], ops, n)
  }

  lemma WaitForm(p: Pid, q: Pid, n: Net, c: Call, m: Net, ops: seq<SelectOp>, k: Cont)
    requires p != q
    ensures SetCont(Entered(Two(p, q, n), 3, p, c).(net := m, ops := ops), p, k) == Waits(p, q, m, ops, c, k)
  {
    var t := SetCont(Entered(Two(p, q, n), 3, p, c).(net := m, ops := ops), p, k);
    assert t.tracees == Waits(p, q, m, ops, c, k).tracees && t.events == Waits(p, q, m, ops, c, k).events;
  }

  lemma WaitStep(p: Pid, q: Pid, n: Net, c: Call, m: Net, ops: seq<SelectOp>, k: Cont)
    requires p != q
    requires var t := Entered(Two(p, q, n), 3, p, c);
             Handle(t, p, c, Ans(q, None)) == Res(SetCont(t.(net := m, ops := ops), p, k), Delayed)
    ensures Next(Two(p, q, n), Run(3, c, q)) == Waits(p, q, m, ops, c, k)
  {
    CallStep(Two(p, q, n), 3, p, c, Ans(q, None));
    WaitForm(p, q, n, c, m, ops, k);
  }

  function StreamNet(): Net { SockNet(false, false, FRESH_SOCK) }

  function Receiving(p: Pid, q: Pid): State {
    Waits(p, q, SockNet(false, false, FRESH_SOCK.(recv := ReadWait(p, FD))), [], RecvFrom(FD, 1), InRecv(FD))
  }

  lemma ReceiveGoes(p: Pid, q: Pid)
    requires p != q
    ensures Goes(Two(p, q, StreamNet()), Run(3, RecvFrom(FD, 1), q), Receiving(p, q))
  {
    WaitStep(p, q, StreamNet(), RecvFrom(FD, 1), Receiving(p, q).net, [], InRecv(FD));
  }

  function Connecting(p: Pid, q: Pid): State {
    Waits(p, q, SockNet(false, false, FRESH_SOCK.(connect := ConnectWait(p, FD), connecting := true)), [],
          Connect(FD, true), InConnect(FD))
  }

  lemma ConnectGoes(p: Pid, q: Pid)
    requires p != q
    ensures Goes(Two(p, q, StreamNet()), Run(3, Connect(FD, true), q), Connecting(p, q))
  {
    WaitStep(p, q, StreamNet(), Connect(FD, true), Connecting(p, q).net, [], InConnect(FD));
  }

  function SelectCall(): Call { Select(Some({FD}), None, None, None) }

  function Selecting(p: Pid, q: Pid): State {
    Waits(p, q, SockNet(false, false, FRESH_SOCK.(recv := SelectRecv(0, FD))),
          [SelectOp(p, true, false, {FD}, {}, false, None)], SelectCall(), InSelect(0))
  }

  lemma SelectNet()
    ensures var n := StreamNet();
            WatchR(n.fds, Some({FD})) == {FD} && WatchW(n.fds, None) == {} &&
            WatchedNet(n, 0, {FD}, {}) == SockNet(false, false, FRESH_SOCK.(recv := SelectRecv(0, FD)))
  {
    var n := StreamNet();
    assert FdOk(n);
    WatchedSockOf(n, FD, 0, {FD}, {});
  }

  lemma SelectBlocks(t: State, p: Pid, q: Pid)
    requires t.net == StreamNet() && t.ops == []
    ensures Handle(t, p, SelectCall(), Ans(q, None)) ==
            Res(SetCont(t.(net := Selecting(p, q).net, ops := Selecting(p, q).ops), p, InSelect(0)), Delayed)
  {
    SelectNet();
  }

  lemma SelectGoes(p: Pid, q: Pid)
    requires p != q
    ensures Goes(Two(p, q, StreamNet()), Run(3, SelectCall(), q), Selecting(p, q))
  {
    SelectBlocks(Entered(Two(p, q, StreamNet()), 3, p, SelectCall()), p, q);
    WaitStep(p, q, StreamNet(), SelectCall(), Selecting(p, q).net, Selecting(p, q).ops, InSelect(0));
  }

  // ---- and the second disturbs it ----------------------------------------------------------------------

  lemma StreamReached(p: Pid, q: Pid, step: Step, t: State)
    requires p != q && Goes(Two(p, q, StreamNet()), step, t)
    ensures Reachable(p, t)
  {
    TwoReached(p, q, StreamCall(), StreamNet());
    Then(p, Two(p, q, StreamNet()), step, t);
  }

  /** A dispatch for a call that is not allowed and does not stop the simulator. */
  ghost predicate Forbidden(s: State, e: EvId, q: Pid, d: Call, ans: Answer) {
    Dispatches(s, e, q) && IsNext(s.events, e) && !d.Clone? && !CallAllowed(s, q, d, ans) &&
    var r := Handle(Entered(s, e, q, d), q, d, ans);
    !r.s.halted && r.code != Error && r.code != SystemExit
  }

  lemma Disturbs(p: Pid, s: State, e: EvId, q: Pid, d: Call, ans: Answer)
    requires Reachable(p, s) && Forbidden(s, e, q, d, ans)
    ensures Breaks(p, s, Step(Fire(e, d), ans))
    ensures var n := Entered(s, e, q, d);
            Serving(n, q, d) && !CallAllowed(n, q, d, ans) &&
            Next(s, Step(Fire(e, d), ans)) == Exactness.After(n, q, d, ans) && !Exactness.After(n, q, d, ans).halted
  {
    CallStep(s, e, q, d, ans);
    Undisciplined(p, s, Step(Fire(e, d), ans));
    IsServed(s, e, q, d, ans);
  }

  lemma IsServed(s: State, e: EvId, q: Pid, d: Call, ans: Answer)
    requires Inv(s) && Dispatches(s, e, q) && IsNext(s.events, e)
    ensures Serving(Entered(s, e, q, d), q, d) &&
            (CallAllowed(Entered(s, e, q, d), q, d, ans) <==> CallAllowed(s, q, d, ans))
  {
    assert EventOk(s.tracees, s.ops, e, s.events[e].what);
    DispatchedActive(s, e, q, d);
    assert Dispatched(s, e, q, d) == Entered(s, e, q, d);
    StillAllowed(s, Entered(s, e, q, d), q, d, ans);
  }

  lemma ReceiveTaken(p: Pid, q: Pid)
    requires p != q
    ensures Forbidden(Receiving(p, q), 2, q, RecvFrom(FD, 1), Ans(q, None)) &&
            Forbidden(Receiving(p, q), 2, q, Close(FD), Ans(q, None)) &&
            Forbidden(Receiving(p, q), 2, q, Listen(FD), Ans(q, None))
  {
  }

  lemma ReceiveReached(p: Pid, q: Pid)
    requires p != q
    ensures Reachable(p, Receiving(p, q))
  {
    ReceiveGoes(p, q);
    StreamReached(p, q, Run(3, RecvFrom(FD, 1), q), Receiving(p, q));
  }

  /** The step breaks what there was, and thread `p` is lost. */
  ghost predicate Loses(p: Pid, s: State, step: Step) {
    Breaks(p, s, step) && Lost(Next(s, step), p)
  }

  /** `p` waits for data: another receive takes its closure, a close its socket, and a listener gets no data. */
  lemma ReceiveDisturbed(p: Pid, q: Pid)
    requires p != q
    ensures Loses(p, Receiving(p, q), Run(2, RecvFrom(FD, 1), q))
    ensures Loses(p, Receiving(p, q), Run(2, Close(FD), q))
    ensures Loses(p, Receiving(p, q), Run(2, Listen(FD), q))
  {
    ReceiveReached(p, q);
    ReceiveTaken(p, q);
    ReceiveOverwritten(p, q);
    ReceiveClosed(p, q);
    ReceiveDeafened(p, q);
  }

  lemma ReceiveOverwritten(p: Pid, q: Pid)
    requires p != q && Reachable(p, Receiving(p, q)) && Forbidden(Receiving(p, q), 2, q, RecvFrom(FD, 1), Ans(q, None))
    ensures Loses(p, Receiving(p, q), Run(2, RecvFrom(FD, 1), q))
  {
    Disturbs(p, Receiving(p, q), 2, q, RecvFrom(FD, 1), Ans(q, None));
    Exactness.ReceiveLoses(Entered(Receiving(p, q), 2, q, RecvFrom(FD, 1)), q, RecvFrom(FD, 1), Ans(q, None));
  }

  lemma ReceiveClosed(p: Pid, q: Pid)
    requires p != q && Reachable(p, Receiving(p, q)) && Forbidden(Receiving(p, q), 2, q, Close(FD), Ans(q, None))
    ensures Loses(p, Receiving(p, q), Run(2, Close(FD), q))
  {
    var n := Entered(Receiving(p, q), 2, q, Close(FD));
    Disturbs(p, Receiving(p, q), 2, q, Close(FD), Ans(q, None));
    Exactness.CloseLoses(n, q, Close(FD), Ans(q, None));
    assert p in n.tracees && FD in WaitFds(n.ops, n.tracees[p].cont);
  }

  lemma ReceiveDeafened(p: Pid, q: Pid)
    requires p != q && Reachable(p, Receiving(p, q)) && Forbidden(Receiving(p, q), 2, q, Listen(FD), Ans(q, None))
    ensures Loses(p, Receiving(p, q), Run(2, Listen(FD), q))
  {
    Disturbs(p, Receiving(p, q), 2, q, Listen(FD), Ans(q, None));
    Exactness.ListenLoses(Entered(Receiving(p, q), 2, q, Listen(FD)), q, Listen(FD), Ans(q, None));
  }

  /** A listen that ns-3 refuses harms nobody: `p` still waits for the data of the socket. */
  lemma RefusedListenSpares(p: Pid, q: Pid, rx: nat)
    requires p != q && rx > 0
    ensures var t, data := Unspoilt(p, q), Step(Data(100, 0, rx), Ans(q, None));
            Reachable(p, t) && FD in t.net.fds.listening && Wakes(t, ByData(0), p) &&
            Goes(t, data, Next(t, data)) && Next(t, data).tracees[p].stop == AtExit(Value(0))
  {
    var s, step := Receiving(p, q), Step(Fire(2, Listen(FD)), Refusal(q));
    ReceiveReached(p, q);
    ListenRefused(p, q);
    Then(p, s, step, Unspoilt(p, q));
    assert IsFdOf(Unspoilt(p, q).net.fds.sockets, FD, 0);
  }

  /** `q` has been refused to listen where `p` waits for data. */
  function Unspoilt(p: Pid, q: Pid): State {
    var s := Receiving(p, q);
    Answered'(s, 2, q, SockNet(false, true, s.net.socks[0]), Value(-1))
  }

  lemma ListenRefused(p: Pid, q: Pid)
    requires p != q
    ensures Goes(Receiving(p, q), Step(Fire(2, Listen(FD)), Refusal(q)), Unspoilt(p, q))
  {
    var s := Receiving(p, q);
    AnswerStep(s, 2, q, Listen(FD), Refusal(q), SockNet(false, true, s.net.socks[0]), Value(-1), Failure);
  }

  lemma ConnectTaken(p: Pid, q: Pid)
    requires p != q
    ensures Forbidden(Connecting(p, q), 2, q, Connect(FD, true), Ans(q, None))
  {
  }

  /** `p` waits for its connection attempt: another attempt takes its closure. */
  lemma ConnectDisturbed(p: Pid, q: Pid)
    requires p != q
    ensures Loses(p, Connecting(p, q), Run(2, Connect(FD, true), q))
  {
    ConnectReached(p, q);
    ConnectTaken(p, q);
    Disturbs(p, Connecting(p, q), 2, q, Connect(FD, true), Ans(q, None));
    Exactness.ConnectLoses(Entered(Connecting(p, q), 2, q, Connect(FD, true)), q, Connect(FD, true), Ans(q, None));
  }

  lemma ConnectReached(p: Pid, q: Pid)
    requires p != q
    ensures Reachable(p, Connecting(p, q))
  {
    ConnectGoes(p, q);
    StreamReached(p, q, Run(3, Connect(FD, true), q), Connecting(p, q));
  }

  lemma SelectTaken(p: Pid, q: Pid)
    requires p != q
    ensures Forbidden(Selecting(p, q), 2, q, SelectCall(), Ans(q, None))
  {
    var s := Selecting(p, q);
    assert FD in WatchR(s.net.fds, Some({FD})) && Known(s.net, FD);
    assert WatchR(s.net.fds, Some({FD})) == {FD} && WatchW(s.net.fds, None) == {};
    assert !SelectFails(s.net, Some({FD}), None, None, None);
  }

  lemma ListenTaken(p: Pid, q: Pid)
    requires p != q
    ensures Forbidden(Selecting(p, q), 2, q, Listen(FD), Ans(q, None))
  {
  }

  lemma SelectReached(p: Pid, q: Pid)
    requires p != q
    ensures Reachable(p, Selecting(p, q))
  {
    SelectGoes(p, q);
    StreamReached(p, q, Run(3, SelectCall(), q), Selecting(p, q));
  }

  /** `p` waits in select: another select takes its closure, a listen makes it deaf. Without a timeout it is lost. */
  lemma SelectDisturbed(p: Pid, q: Pid)
    requires p != q
    ensures Loses(p, Selecting(p, q), Run(2, SelectCall(), q)) &&
            Deaf(Next(Selecting(p, q), Run(2, SelectCall(), q)), 0, FD)
    ensures Loses(p, Selecting(p, q), Run(2, Listen(FD), q)) &&
            Deaf(Next(Selecting(p, q), Run(2, Listen(FD), q)), 0, FD)
  {
    SelectReached(p, q);
    SelectTaken(p, q);
    ListenTaken(p, q);
    SelectOverwritten(p, q);
    SelectDeafened(p, q);
  }

  lemma SelectOverwritten(p: Pid, q: Pid)
    requires p != q && Reachable(p, Selecting(p, q)) && Forbidden(Selecting(p, q), 2, q, SelectCall(), Ans(q, None))
    ensures Loses(p, Selecting(p, q), Run(2, SelectCall(), q)) &&
            Deaf(Next(Selecting(p, q), Run(2, SelectCall(), q)), 0, FD)
  {
    var n, c, ans := Entered(Selecting(p, q), 2, q, SelectCall()), SelectCall(), Ans(q, None);
    Disturbs(p, Selecting(p, q), 2, q, c, ans);
    SelectorUnheard(p, q);
  }

  lemma SelectorUnheard(p: Pid, q: Pid)
    requires p != q
    requires var n := Entered(Selecting(p, q), 2, q, SelectCall());
             Serving(n, q, SelectCall()) && !CallAllowed(n, q, SelectCall(), Ans(q, None))
    ensures var t := Exactness.After(Entered(Selecting(p, q), 2, q, SelectCall()), q, SelectCall(), Ans(q, None));
            Lost(t, p) && Deaf(t, 0, FD)
  {
    var n, c, ans := Entered(Selecting(p, q), 2, q, SelectCall()), SelectCall(), Ans(q, None);
    Exactness.SelectMild(n, q, c, ans);
    assert WatchR(n.net.fds, Some({FD})) == {FD} && WatchW(n.net.fds, None) == {};
    WatchedSockOf(n.net, FD, 1, {FD}, {});
    Exactness.WithoutClosure(n, Exactness.After(n, q, c, ans), q, p, 0);
  }

  lemma SelectDeafened(p: Pid, q: Pid)
    requires p != q && Reachable(p, Selecting(p, q)) && Forbidden(Selecting(p, q), 2, q, Listen(FD), Ans(q, None))
    ensures Loses(p, Selecting(p, q), Run(2, Listen(FD), q)) &&
            Deaf(Next(Selecting(p, q), Run(2, Listen(FD), q)), 0, FD)
  {
    var n, c, ans := Entered(Selecting(p, q), 2, q, Listen(FD)), Listen(FD), Ans(q, None);
    Disturbs(p, Selecting(p, q), 2, q, c, ans);
    Exactness.ListenLoses(n, q, c, ans);
    ListenerUnheard(p, q);
  }

  lemma ListenerUnheard(p: Pid, q: Pid)
    requires p != q
    requires var n := Entered(Selecting(p, q), 2, q, Listen(FD));
             Serving(n, q, Listen(FD)) && !CallAllowed(n, q, Listen(FD), Ans(q, None))
    ensures Lost(Exactness.After(Entered(Selecting(p, q), 2, q, Listen(FD)), q, Listen(FD), Ans(q, None)), p)
  {
    var n, c, ans := Entered(Selecting(p, q), 2, q, Listen(FD)), Listen(FD), Ans(q, None);
    Exactness.ListenMild(n, q, c, ans);
    Exactness.WithoutClosure(n, Exactness.After(n, q, c, ans), q, p, 0);
  }

  /**
   * The socket of a pending attempt to connect is closed, and then the attempt succeeds: a closed descriptor counts
   * as connected.
   */
  lemma StrayConnection(p: Pid, q: Pid)
    requires p != q
    ensures var s, step := Next(Connecting(p, q), Run(2, Close(FD), q)), Step(ConnectEnds(100, 0, true), Ans(q, None));
            Loses(p, Connecting(p, q), Run(2, Close(FD), q)) &&
            Enabled(s, step) && Strays(s, step) && FD in Next(s, step).net.fds.connected &&
            FD !in Next(s, step).net.fds.sockets
  {
    ConnectReached(p, q);
    ConnectClosed(p, q);
    Disturbs(p, Connecting(p, q), 2, q, Close(FD), Ans(q, None));
    var n := Entered(Connecting(p, q), 2, q, Close(FD));
    Exactness.CloseLoses(n, q, Close(FD), Ans(q, None));
    assert p in n.tracees && FD in WaitFds(n.ops, n.tracees[p].cont);
  }

  lemma ConnectClosed(p: Pid, q: Pid)
    requires p != q
    ensures Forbidden(Connecting(p, q), 2, q, Close(FD), Ans(q, None))
    ensures var s, step := Next(Connecting(p, q), Run(2, Close(FD), q)), Step(ConnectEnds(100, 0, true), Ans(q, None));
            Enabled(s, step) && Strays(s, step) && FD in Next(s, step).net.fds.connected &&
            FD !in Next(s, step).net.fds.sockets
  {
    CallStep(Connecting(p, q), 2, q, Close(FD), Ans(q, None));
  }

  // ---- Data for a select ----------------------------------------------------------------------------

  /** `p` waits in select and `q` has been dispatched since. */
  function Overtaken(p: Pid, q: Pid): State {
    Answered'(Selecting(p, q), 2, q, Selecting(p, q).net, Kernel)
  }

  lemma OvertakeGoes(p: Pid, q: Pid)
    requires p != q
    ensures Goes(Selecting(p, q), Run(2, PassThrough(0), q), Overtaken(p, q))
  {
    AnswerStep(Selecting(p, q), 2, q, PassThrough(0), Ans(q, None), Selecting(p, q).net, Kernel, Success);
  }

  /**
   * Data arrive for a select whose thread was not dispatched last: that one is resumed without an answer, and the
   * thread that was is taken on to wherever it gets.
   */
  lemma DataAnswersWrongThread(p: Pid, q: Pid, rx: nat)
    requires p != q && rx > 0
    ensures var step := Step(Data(100, 0, rx), Ans(q, None));
            var t := Next(Overtaken(p, q), step);
            Breaks(p, Overtaken(p, q), step) && Astray(t, p) && t.tracees[p].stop == AtEntry(SelectCall()) &&
            q in t.tracees && t.tracees[q].stop == AtEntry(step.ans.stray)
  {
    var s, step := Overtaken(p, q), Step(Data(100, 0, rx), Ans(q, None));
    SelectReached(p, q);
    OvertakeGoes(p, q);
    Then(p, Selecting(p, q), Run(2, PassThrough(0), q), s);
    DataEnabled(p, q, rx);
    Undisciplined(p, s, step);
    DataStrays(p, q, rx);
  }

  lemma DataStrays(p: Pid, q: Pid, rx: nat)
    requires p != q && rx > 0
    ensures var step := Step(Data(100, 0, rx), Ans(q, None));
            var t := Next(Overtaken(p, q), step);
            Astray(t, p) && t.tracees[p].stop == AtEntry(SelectCall()) &&
            q in t.tracees && t.tracees[q].stop == AtEntry(step.ans.stray)
  {
    var t := Next(Overtaken(p, q), Step(Data(100, 0, rx), Ans(q, None)));
    assert t.events[Overtaken(p, q).nextEvent].what == Before(p);
  }

  lemma DataEnabled(p: Pid, q: Pid, rx: nat)
    requires p != q && rx > 0
    ensures var s, step := Overtaken(p, q), Step(Data(100, 0, rx), Ans(q, None));
            Enabled(s, step) && !Disciplined(s, step) && !Next(s, step).halted
  {
  }

  // ---- Connections -------------------------------------------------------------------------------------

  function Listening(p: Pid, q: Pid): State {
    Answered'(Two(p, q, StreamNet()), 3, p, SockNet(false, true, Sim.Listening(FRESH_SOCK, FD)), Value(0))
  }

  lemma ListenGoes(p: Pid, q: Pid)
    requires p != q
    ensures Goes(Two(p, q, StreamNet()), Run(3, Listen(FD), q), Listening(p, q))
  {
    var n := Listening(p, q).net;
    AnswerStep(Two(p, q, StreamNet()), 3, p, Listen(FD), Ans(q, None), n, Value(0), Success);
  }

  lemma ListenReached(p: Pid, q: Pid)
    requires p != q
    ensures Reachable(p, Listening(p, q))
  {
    ListenGoes(p, q);
    StreamReached(p, q, Run(3, Listen(FD), q), Listening(p, q));
  }

  /** `p` waits in accept. */
  function Accepting(p: Pid, q: Pid): State {
    At(p, 0, map[2 := Event(100, Before(q))], 5,
       map[p := Tracee(AtEntry(Accept(FD)), InAccept(FD)), q := Tracee(AtExit(Kernel), Resumes(2))], [],
       SockNet(false, true, FRESH_SOCK.(accept := AcceptWait(p, FD), listens := true)))
  }

  lemma AcceptBlocks(t: State, p: Pid, q: Pid)
    requires t.net == SockNet(false, true, Sim.Listening(FRESH_SOCK, FD))
    ensures Handle(t, p, Accept(FD), Ans(q, None)) ==
            Res(SetCont(t.(net := SockNet(false, true, FRESH_SOCK.(accept := AcceptWait(p, FD), listens := true))), p,
                        InAccept(FD)), Delayed)
  {
  }

  lemma AcceptStep(p: Pid, q: Pid)
    requires p != q
    ensures Next(Listening(p, q), Run(4, Accept(FD), q)) == Accepting(p, q)
  {
    CallStep(Listening(p, q), 4, p, Accept(FD), Ans(q, None));
    AcceptBlocks(Entered(Listening(p, q), 4, p, Accept(FD)), p, q);
    var t, u := Next(Listening(p, q), Run(4, Accept(FD), q)), Accepting(p, q);
    assert t.tracees == u.tracees && t.events == u.events;
  }

  lemma AcceptGoes(p: Pid, q: Pid)
    requires p != q
    ensures Goes(Listening(p, q), Run(4, Accept(FD), q), Accepting(p, q))
  {
    AcceptStep(p, q);
  }

  lemma AcceptReached(p: Pid, q: Pid)
    requires p != q
    ensures Reachable(p, Accepting(p, q))
  {
    ListenReached(p, q);
    AcceptGoes(p, q);
    Then(p, Listening(p, q), Run(4, Accept(FD), q), Accepting(p, q));
  }

  lemma AcceptTaken(p: Pid, q: Pid)
    requires p != q
    ensures Forbidden(Accepting(p, q), 2, q, Accept(FD), Ans(q, None))
  {
  }

  lemma ListenerTaken(p: Pid, q: Pid)
    requires p != q
    ensures Forbidden(Accepting(p, q), 2, q, Connect(FD, true), Ans(q, None))
  {
  }

  /** `p` waits in accept: another accept takes its closure, a connect ends listening. */
  lemma AcceptDisturbed(p: Pid, q: Pid)
    requires p != q
    ensures Loses(p, Accepting(p, q), Run(2, Accept(FD), q))
    ensures Loses(p, Accepting(p, q), Run(2, Connect(FD, true), q))
  {
    AcceptOverwritten(p, q);
    ListenerConnected(p, q);
  }

  lemma ListenerConnected(p: Pid, q: Pid)
    requires p != q
    ensures Loses(p, Accepting(p, q), Run(2, Connect(FD, true), q))
  {
    AcceptReached(p, q);
    ListenerTaken(p, q);
    var n, c, ans := Entered(Accepting(p, q), 2, q, Connect(FD, true)), Connect(FD, true), Ans(q, None);
    Disturbs(p, Accepting(p, q), 2, q, c, ans);
    Exactness.ConnectLoses(n, q, c, ans);
  }

  lemma AcceptOverwritten(p: Pid, q: Pid)
    requires p != q
    ensures Loses(p, Accepting(p, q), Run(2, Accept(FD), q))
  {
    AcceptReached(p, q);
    AcceptTaken(p, q);
    Disturbs(p, Accepting(p, q), 2, q, Accept(FD), Ans(q, None));
    Exactness.AcceptLoses(Entered(Accepting(p, q), 2, q, Accept(FD)), q, Accept(FD), Ans(q, None));
  }


  // ---- Netlink -------------------------------------------------------------------------------------------

  /** `p` sleeps; its netlink socket is there for all to use. */
  function Sleeping(p: Pid, q: Pid): State {
    At(p, 0, map[2 := Event(100, Before(q)), 4 := Event(NS_PER_SEC, SleepDone(p))], 5,
       map[p := Tracee(AtEntry(NanoSleep(1, 0)), InSleep(4)), q := Tracee(AtExit(Kernel), Resumes(2))], [],
       NlNet(Nl(p, [], NoNl)))
  }

  lemma SleepStep(p: Pid, q: Pid)
    requires p != q
    ensures Next(Two(p, q, NlNet(Nl(p, [], NoNl))), Run(3, NanoSleep(1, 0), q)) == Sleeping(p, q)
  {
    var s := Two(p, q, NlNet(Nl(p, [], NoNl)));
    CallStep(s, 3, p, NanoSleep(1, 0), Ans(q, None));
    var t, u := Next(s, Run(3, NanoSleep(1, 0), q)), Sleeping(p, q);
    assert t.tracees == u.tracees && t.events == u.events;
  }

  lemma SleepGoes(p: Pid, q: Pid)
    requires p != q
    ensures Goes(Two(p, q, NlNet(Nl(p, [], NoNl))), Run(3, NanoSleep(1, 0), q), Sleeping(p, q))
  {
    SleepStep(p, q);
  }

  lemma SleepReached(p: Pid, q: Pid)
    requires p != q
    ensures Reachable(p, Sleeping(p, q))
  {
    var n := NlNet(Nl(p, [], NoNl));
    TwoReached(p, q, NetlinkCall(), n);
    SleepGoes(p, q);
    Then(p, Two(p, q, n), Run(3, NanoSleep(1, 0), q), Sleeping(p, q));
  }

  lemma QueueTaken(p: Pid, q: Pid, len: nat)
    requires p != q
    ensures Forbidden(Sleeping(p, q), 2, q, RecvMsg(FD, len), Ans(q, None))
  {
  }

  /** A thread that asks another's netlink socket is left at the entry of its call. */
  lemma ForeignReceiverIsLost(p: Pid, q: Pid, len: nat)
    requires p != q
    ensures Breaks(p, Sleeping(p, q), Run(2, RecvMsg(FD, len), q))
    ensures var t := Next(Sleeping(p, q), Run(2, RecvMsg(FD, len), q));
            Astray(t, q) && t.tracees[q].stop == AtEntry(RecvMsg(FD, len))
  {
    SleepReached(p, q);
    QueueTaken(p, q, len);
    Disturbs(p, Sleeping(p, q), 2, q, RecvMsg(FD, len), Ans(q, None));
    NotAnswered(Entered(Sleeping(p, q), 2, q, RecvMsg(FD, len)), q, RecvMsg(FD, len), Ans(q, None));
  }

  /** `q` waits in select for replies on the socket of `p`. */
  function Watching(p: Pid, q: Pid): State {
    At(q, 100, map[4 := Event(NS_PER_SEC, SleepDone(p))], 5,
       map[p := Tracee(AtEntry(NanoSleep(1, 0)), InSleep(4)), q := Tracee(AtEntry(SelectCall()), InSelect(0))],
       [SelectOp(q, true, false, {FD}, {}, false, None)], NlNet(Nl(p, [], SelectNl(0, FD))))
  }

  lemma WatchNet(p: Pid)
    ensures var n := NlNet(Nl(p, [], NoNl));
            WatchR(n.fds, Some({FD})) == {FD} && WatchW(n.fds, None) == {} &&
            WatchedNet(n, 0, {FD}, {}) == NlNet(Nl(p, [], SelectNl(0, FD)))
  {
    var n := NlNet(Nl(p, [], NoNl));
    assert FdOk(n);
    WatchedNlOf(n, FD, 0, {FD});
  }

  lemma WatchBlocks(t: State, p: Pid, q: Pid)
    requires t.net == NlNet(Nl(p, [], NoNl)) && t.ops == []
    ensures Handle(t, q, SelectCall(), Ans(q, None)) ==
            Res(SetCont(t.(net := NlNet(Nl(p, [], SelectNl(0, FD))),
                           ops := [SelectOp(q, true, false, {FD}, {}, false, None)]),
                        q, InSelect(0)), Delayed)
  {
    WatchNet(p);
  }

  lemma WatchStep(p: Pid, q: Pid)
    requires p != q
    ensures Next(Sleeping(p, q), Run(2, SelectCall(), q)) == Watching(p, q)
  {
    CallStep(Sleeping(p, q), 2, q, SelectCall(), Ans(q, None));
    WatchBlocks(Entered(Sleeping(p, q), 2, q, SelectCall()), p, q);
    var t, u := Next(Sleeping(p, q), Run(2, SelectCall(), q)), Watching(p, q);
    assert t.tracees == u.tracees && t.events == u.events;
  }

  lemma WatchGoes(p: Pid, q: Pid)
    requires p != q
    ensures Goes(Sleeping(p, q), Run(2, SelectCall(), q), Watching(p, q))
  {
    WatchStep(p, q);
  }

  lemma WatchReached(p: Pid, q: Pid)
    requires p != q
    ensures Reachable(p, Watching(p, q))
  {
    SleepReached(p, q);
    WatchGoes(p, q);
    Then(p, Sleeping(p, q), Run(2, SelectCall(), q), Watching(p, q));
  }

  /** `p` has woken up. */
  function Awake(p: Pid, q: Pid): State {
    Watching(p, q).(now := NS_PER_SEC, events := map[5 := Event(NS_PER_SEC, Before(p))], nextEvent := 6,
                    tracees := map[p := Tracee(AtExit(Value(0)), Resumes(5)), q := Watching(p, q).tracees[q]])
  }

  lemma WakeStep(p: Pid, q: Pid)
    requires p != q
    ensures Next(Watching(p, q), Run(4, Exit, q)) == Awake(p, q)
  {
    var s, u := Watching(p, q), Awake(p, q);
    var t := Resume(Fake(s.(now := NS_PER_SEC, events := s.events - {4}), p, Value(0), Exit), p);
    assert t.tracees == u.tracees && t.events == u.events;
  }

  lemma WakeGoes(p: Pid, q: Pid)
    requires p != q
    ensures Goes(Watching(p, q), Run(4, Exit, q), Awake(p, q))
  {
    WakeStep(p, q);
  }

  lemma WakeReached(p: Pid, q: Pid)
    requires p != q
    ensures Reachable(p, Awake(p, q))
  {
    WatchReached(p, q);
    WakeGoes(p, q);
    Then(p, Watching(p, q), Run(4, Exit, q), Awake(p, q));
  }

  lemma RequestTaken(p: Pid, q: Pid, buf: Bytes, es: seq<Effect>)
    requires p != q && WalkBuffers([buf], []) == Fine(es) && es != [] && !Notifies(es)
    ensures Forbidden(Awake(p, q), 5, p, SendMsg(FD, [buf]), Ans(q, None))
  {
  }

  /** A route is added while another thread waits for replies: the acknowledgement is queued and nobody told. */
  lemma AckIsNotHeard(p: Pid, q: Pid, m: Msg)
    requires p != q && MsgWellFormed(m, []) && m.RouteMsg?
    ensures var step := Run(5, SendMsg(FD, [EncMsg(m, [])]), q);
            var t := Next(Awake(p, q), step);
            Breaks(p, Awake(p, q), step) && Deaf(t, 0, FD) && SelectWaits(t, q, 0) && Readable(t.net, FD)
  {
    var buf := EncMsg(m, []);
    WakeReached(p, q);
    RouteWalk(m);
    RequestTaken(p, q, buf, [Meaning(m, [])]);
    Disturbs(p, Awake(p, q), 5, p, SendMsg(FD, [buf]), Ans(q, None));
    AckUnheard(p, q, buf, [Meaning(m, [])]);
  }

  /** Thread `q` stands at the entry of select with operation `op` unanswered. */
  ghost predicate SelectWaits(t: State, q: Pid, op: OpId) {
    q in t.tracees && t.tracees[q].stop == AtEntry(SelectCall()) && op < |t.ops| && t.ops[op].pid == q &&
    !t.ops[op].handled
  }

  lemma AckUnheard(p: Pid, q: Pid, buf: Bytes, es: seq<Effect>)
    requires p != q && WalkBuffers([buf], []) == Fine(es) && es != [] && !Notifies(es)
    ensures var t := Next(Awake(p, q), Run(5, SendMsg(FD, [buf]), q));
            Deaf(t, 0, FD) && SelectWaits(t, q, 0) && Readable(t.net, FD)
  {
    CallStep(Awake(p, q), 5, p, SendMsg(FD, [buf]), Ans(q, None));
    SilentReplies(es);
  }

  lemma RouteWalk(m: Msg)
    requires MsgWellFormed(m, []) && m.RouteMsg?
    ensures WalkBuffers([EncMsg(m, [])], []) == Fine([Meaning(m, [])]) && !Notifies([Meaning(m, [])])
  {
    var iov := [EncMsg(m, [])];
    OneMessage(m);
    assert iov[1..] == [] && [Meaning(m, [])] + [] == [Meaning(m, [])];
    assert WalkBuffers(iov[1..], []) == Fine([]);
  }

  lemma OneMessage(m: Msg)
    requires MsgWellFormed(m, [])
    ensures WalkMsgs(EncMsg(m, []), []) == Fine([Meaning(m, [])])
  {
    var ms := [m];
    MsgWalkRoundTrip(ms, []);
    assert ms[1..] == [];
    assert EncMsgs(ms, []) == EncMsg(m, []);
    assert Meanings(ms, []) == [Meaning(m, [])];
  }
}
