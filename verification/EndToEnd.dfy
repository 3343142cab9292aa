/**
 * From netlink buffers to forwarding decisions, over whole runs of the simulator: the routing table is the
 * net effect of all requests made, on whatever netlink socket, and every socket's replies come out in order.
 */
module EndToEnd {
  import opened Base
  import opened Routing
  import opened RoutingHistory
  import opened NetlinkWire
  import opened NetlinkCodec
  import opened Sim
  import opened SimRun
  import opened SimServing
  import opened SimFrame
  import NL = Netlink

  // ---- What one step does to routes and replies ---------------------------------------------

  /** The netlink request a step makes: descriptor and what walking the buffers comes to. */
  function Request(s: State, step: Step): Option<(Fd, Outcome<seq<Effect>>)> {
    match step.act
    case Fire(e, next) =>
      var c := CaughtBy(s, e, next);
      if c.Some? then RequestOf(s, c.value) else None
    case _ => None
  }

  function EffectsOf(s: State, step: Step): seq<Effect> {
    var r := Request(s, step);
    if r.Some? && r.value.1.Fine? then r.value.1.value else []
  }

  /** The step makes a request of netlink socket `i`. */
  predicate AsksOf(s: State, step: Step, i: NlId) {
    var r := Request(s, step);
    r.Some? && r.value.0 in s.net.fds.netlinks && s.net.fds.netlinks[r.value.0] == i
  }

  /** The effects on netlink socket `i`. */
  function EffectsOn(s: State, step: Step, i: NlId): seq<Effect> {
    if AsksOf(s, step, i) then EffectsOf(s, step) else []
  }

  /** The reply a step hands to the application from netlink socket `i`. */
  function Delivered(s: State, step: Step, i: NlId): seq<Reply> {
    match step.act
    case Fire(e, next) =>
      var c := CaughtBy(s, e, next);
      if c.Some? && c.value.RecvMsg? && KnownNl(s.net, c.value.fd) && s.net.fds.netlinks[c.value.fd] == i &&
         s.net.nls[i].replies != []
      then [s.net.nls[i].replies[0]]
      else []
    case _ => []
  }

  /** The queue of a netlink socket; one that does not exist yet has none. */
  function Queue(n: Net, i: NlId): seq<Reply> {
    if i < |n.nls| then n.nls[i].replies else []
  }

  /** Nothing was asked of netlink. */
  ghost predicate Silent(s: State, t: State) {
    t.table == s.table && t.app == s.app && RepliesKept(s.net.nls, t.net.nls)
  }

  lemma DataSilent(s: State, sid: SockId, rx: nat, ans: Answer)
    requires sid < |s.net.socks|
    ensures Silent(s, OnData(s, sid, rx, ans))
  {
    var k := s.net.socks[sid];
    if k.recv.SelectRecv? && StillWaits(s.ops, k.recv.op) {
      FinishFrame(SetSock(s, sid, k.(rx := rx)), k.recv.op, s.pid, OneRead(s.ops[k.recv.op], k.recv.fd), ans.stray);
    } else {
      DataFrame(s, sid, rx, ans);
    }
  }

  lemma ConnectionSilent(s: State, sid: SockId, ans: Answer)
    requires sid < |s.net.socks|
    ensures Silent(s, OnConnection(s, sid, ans))
  {
    var a := s.net.socks[sid].accept;
    if a.SelectAccept? && StillWaits(s.ops, a.op) && Known(s.net, a.fd) {
      SelectAcceptFrame(s, sid, ans);
    }
  }

  lemma AnsweredRest(s: State, p: Pid, result: Result, code: Code, ans: Answer)
    ensures var t := Answered(s, p, result, code, ans).s; t.net == s.net && t.table == s.table && t.app == s.app
  {
  }

  lemma SentEffects(s: State, n: NlId, es: seq<Effect>, r: NlCb, i: NlId)
    requires n < |s.net.nls|
    ensures var t := Sent(s, n, es, r);
            t.table == ApplyAll(s.table, OpsOf(es)) && t.app == s.app &&
            Queue(t.net, i) == Queue(s.net, i) + if n == i then RepliesOf(es) else []
  {
  }

  lemma SendEffects(s: State, fd: Fd, walked: Outcome<seq<Effect>>, returned: int, ans: Answer, i: NlId)
    requires KnownNl(s.net, fd) && walked.Fine?
    ensures var t := NetlinkSend(s, fd, walked, returned, ans).s;
            t.table == ApplyAll(s.table, OpsOf(walked.value)) && t.app == s.app &&
            Queue(t.net, i) == Queue(s.net, i) + if s.net.fds.netlinks[fd] == i then RepliesOf(walked.value) else []
  {
    var n, es := s.net.fds.netlinks[fd], walked.value;
    var r, s1, q := s.net.nls[n].recv, Sent(s, n, es, s.net.nls[n].recv), s.net.nls[n].owner;
    SentEffects(s, n, es, r, i);
    if Notified(s, fd, walked).Some? {
      var f := FinishSelect(s1, r.op, s.ops[r.op].pid, OneRead(s.ops[r.op], r.fd), ans.stray);
      FinishFrame(s1, r.op, s.ops[r.op].pid, OneRead(s.ops[r.op], r.fd), ans.stray);
      var s2 := SetNl(f, n, f.net.nls[n].(recv := NoNl));
      AnsweredRest(s2, q, Value(returned), Success, ans);
      assert NetlinkSend(s, fd, walked, returned, ans) == Answered(s2, q, Value(returned), Success, ans);
    } else {
      AnsweredRest(s1, q, Value(returned), Success, ans);
      assert NetlinkSend(s, fd, walked, returned, ans) == Answered(s1, q, Value(returned), Success, ans);
    }
  }

  /** What a dispatched call does to the table and to the queue of socket `i`. */
  ghost predicate CallEffect(s: State, t: State, es: seq<Effect>, on: seq<Effect>, given: seq<Reply>, i: NlId) {
    t.table == ApplyAll(s.table, OpsOf(es)) && t.app == s.app &&
    given + Queue(t.net, i) == Queue(s.net, i) + RepliesOf(on)
  }

  lemma SilentEffect(s: State, t: State, i: NlId)
    requires Silent(s, t)
    ensures CallEffect(s, t, [], [], [], i)
  {
    assert [] + Queue(t.net, i) == Queue(s.net, i) + [];
  }

  function CallRequest(s: State, c: Call, i: NlId): (seq<Effect>, seq<Effect>, seq<Reply>) {
    var r := RequestOf(s, c);
    var es := if r.Some? && r.value.1.Fine? then r.value.1.value else [];
    (es,
     if r.Some? && r.value.0 in s.net.fds.netlinks && s.net.fds.netlinks[r.value.0] == i then es else [],
     if c.RecvMsg? && KnownNl(s.net, c.fd) && s.net.fds.netlinks[c.fd] == i && s.net.nls[i].replies != [] then
       [s.net.nls[i].replies[0]]
     else [])
  }

  lemma SendCallEffect(s: State, p: Pid, c: Call, ans: Answer, i: NlId)
    requires RequestOf(s, c).Some? && Handle(s, p, c, ans).code != Error
    ensures var (es, on, given) := CallRequest(s, c, i); CallEffect(s, Handle(s, p, c, ans).s, es, on, given, i)
  {
    var (fd, walked) := RequestOf(s, c).value;
    var returned := if c.SendTo? then LeftoverValue(c.buf) else NL.TotalLen(c.iov);
    assert Handle(s, p, c, ans) == NetlinkSend(s, fd, walked, returned, ans);
    SendEffects(s, fd, walked, returned, ans, i);
    assert RepliesOf([]) == [];
  }

  /** The oldest reply leaves the queue of the socket asked; nothing else happens to the queues and the routes. */
  lemma ReceiveEffects(s: State, fd: Fd, iovLen: nat, ans: Answer, i: NlId)
    requires KnownNl(s.net, fd) && HandleRecvMsg(s, fd, iovLen, ans).code != Error
    ensures var t := HandleRecvMsg(s, fd, iovLen, ans).s;
            t.table == s.table && t.app == s.app &&
            Queue(t.net, i) ==
            if i == s.net.fds.netlinks[fd] && Queue(s.net, i) != [] then Queue(s.net, i)[1..] else Queue(s.net, i)
  {
    var n := s.net.fds.netlinks[fd];
    var q := s.net.nls[n];
    AnsweredRest(s, q.owner, Value(-1), Failure, ans);
    if q.replies != [] {
      var result := Message(NL.ReplyLen(q.replies[0]), q.replies[0]);
      AnsweredRest(SetNl(s, n, q.(replies := q.replies[1..])), q.owner, result, Success, ans);
    }
  }

  lemma ReceiveCallEffect(s: State, p: Pid, c: Call, ans: Answer, i: NlId)
    requires c.RecvMsg? && Handle(s, p, c, ans).code != Error
    ensures var (es, on, given) := CallRequest(s, c, i); CallEffect(s, Handle(s, p, c, ans).s, es, on, given, i)
  {
    var q := Queue(s.net, i);
    ReceiveEffects(s, c.fd, c.iovLen, ans, i);
    assert RepliesOf([]) == [] && ApplyAll(s.table, OpsOf([])) == s.table;
    assert q + [] == q && [] + q == q;
    assert q != [] ==> [q[0]] + q[1..] == q;
  }

  lemma OneCallEffect(s: State, p: Pid, c: Call, ans: Answer, i: NlId)
    requires Handle(s, p, c, ans).code != Error
    ensures var (es, on, given) := CallRequest(s, c, i); CallEffect(s, Handle(s, p, c, ans).s, es, on, given, i)
  {
    if RequestOf(s, c).Some? {
      SendCallEffect(s, p, c, ans, i);
    } else if c.RecvMsg? {
      ReceiveCallEffect(s, p, c, ans, i);
    } else {
      assert Silent(s, Handle(s, p, c, ans).s) by {
        if Ordinary(c) {
          CallFrame(s, p, c, ans);
        }
      }
      SilentEffect(s, Handle(s, p, c, ans).s, i);
    }
  }

  /** Callbacks ask nothing of netlink. */
  lemma CallbackSilent(s: State, step: Step)
    requires !step.act.Fire?
    ensures Silent(s, Next(s, step))
  {
    match step.act
    case Data(at, sid, rx) => if sid < |s.net.socks| { DataSilent(s.(now := at), sid, rx, step.ans); }
    case Space(at, sid, tx) => if sid < |s.net.socks| { SpaceFrame(s.(now := at), sid, tx, step.ans); }
    case Connection(at, sid) => if sid < |s.net.socks| { ConnectionSilent(s.(now := at), sid, step.ans); }
    case ConnectEnds(at, sid, ok) => if sid < |s.net.socks| { ConnectFrame(s.(now := at), sid, ok, step.ans); }
  }

  lemma DispatchEffect(s: State, e: EvId, next: Call, ans: Answer, i: NlId)
    requires CaughtBy(s, e, next).Some? && !Next(s, Step(Fire(e, next), ans)).halted
    ensures var (es, on, given) := CallRequest(s, CaughtBy(s, e, next).value, i);
            CallEffect(s, Next(s, Step(Fire(e, next), ans)), es, on, given, i)
  {
    var c, p := CaughtBy(s, e, next).value, s.events[e].what.pid;
    var d := Dispatched(s, e, p, next);
    var r := Handle(d, p, c, ans);
    DispatchForm(s, e, next, ans);
    OneCallEffect(d, p, c, ans, i);
    StatusFrame(r, p);
    StatusEffect(d, r.s, ProcessStatusCode(r.s, r.code, p), p, c, i);
    SameEffect(s, d, ProcessStatusCode(r.s, r.code, p), c, i);
  }

  lemma SameEffect(s: State, d: State, u: State, c: Call, i: NlId)
    requires d.net == s.net && d.app == s.app && d.table == s.table
    requires var (es, on, given) := CallRequest(d, c, i); CallEffect(d, u, es, on, given, i)
    ensures var (es, on, given) := CallRequest(s, c, i); CallEffect(s, u, es, on, given, i)
  {
    SameRequest(s, d, c, i);
  }

  lemma SameRequest(s: State, d: State, c: Call, i: NlId)
    requires d.net == s.net && d.app == s.app
    ensures CallRequest(d, c, i) == CallRequest(s, c, i)
  {
  }

  lemma DispatchForm(s: State, e: EvId, next: Call, ans: Answer)
    requires CaughtBy(s, e, next).Some?
    ensures var p := s.events[e].what.pid;
            var d := Dispatched(s, e, p, next);
            var r := Handle(d, p, Caught(s, p, next), ans);
            Next(s, Step(Fire(e, next), ans)) == ProcessStatusCode(r.s, r.code, p) &&
            d.net == s.net && d.app == s.app && d.table == s.table && d.ops == s.ops
  {
  }

  lemma StatusEffect(s: State, t: State, u: State, p: Pid, c: Call, i: NlId)
    requires Frame(t, u, p)
    requires var (es, on, given) := CallRequest(s, c, i); CallEffect(s, t, es, on, given, i)
    ensures var (es, on, given) := CallRequest(s, c, i); CallEffect(s, u, es, on, given, i)
  {
  }

  /** Every step applies its request to the table, and queues or delivers its replies. */
  lemma StepEffect(s: State, step: Step, i: NlId)
    requires !Next(s, step).halted
    ensures CallEffect(s, Next(s, step), EffectsOf(s, step), EffectsOn(s, step, i), Delivered(s, step, i), i)
  {
    if step.act.Fire? && CaughtBy(s, step.act.e, step.act.next).Some? {
      DispatchEffect(s, step.act.e, step.act.next, step.ans, i);
    } else {
      if step.act.Fire? {
        EventSilent(s, step.act.e, step.act.next, step.ans);
      } else {
        CallbackSilent(s, step);
      }
      SilentEffect(s, Next(s, step), i);
    }
  }

  lemma EventSilent(s: State, e: EvId, next: Call, ans: Answer)
    requires CaughtBy(s, e, next).None?
    ensures Silent(s, Next(s, Step(Fire(e, next), ans)))
  {
    if e in s.events && s.events[e].what.SelectTimeout? {
      var op := s.events[e].what.op;
      if StillWaits(s.ops, op) {
        FinishFrame(s.(now := s.events[e].at, events := s.events - {e}), op, s.ops[op].pid, SelectTimedOut, ans.stray);
      }
    }
  }

  // ---- Runs -----------------------------------------------------------------------------------

  /** Everything asked of netlink in a run, in order. */
  ghost function AllEffects(s: State, steps: seq<Step>): seq<Effect>
    decreases steps
  {
    if steps == [] || s.halted then [] else EffectsOf(s, steps[0]) + AllEffects(Next(s, steps[0]), steps[1..])
  }

  ghost function AllEffectsOn(s: State, steps: seq<Step>, i: NlId): seq<Effect>
    decreases steps
  {
    if steps == [] || s.halted then [] else EffectsOn(s, steps[0], i) + AllEffectsOn(Next(s, steps[0]), steps[1..], i)
  }

  ghost function AllDelivered(s: State, steps: seq<Step>, i: NlId): seq<Reply>
    decreases steps
  {
    if steps == [] || s.halted then [] else Delivered(s, steps[0], i) + AllDelivered(Next(s, steps[0]), steps[1..], i)
  }

  /** The table is the outcome of all requests made, on whatever descriptor. */
  lemma {:induction false} TableOfRun(s: State, steps: seq<Step>)
    requires !RunAll(s, steps).halted
    ensures RunAll(s, steps).table == ApplyAll(s.table, OpsOf(AllEffects(s, steps)))
    decreases steps
  {
    if steps != [] {
      var t := Next(s, steps[0]);
      TableOfRun(t, steps[1..]);
      StepEffect(s, steps[0], 0);
      EffectsConcat(EffectsOf(s, steps[0]), AllEffects(t, steps[1..]));
      ApplyAllConcat(s.table, OpsOf(EffectsOf(s, steps[0])), OpsOf(AllEffects(t, steps[1..])));
    }
  }

  /** Replies delivered from a socket, followed by its queue, are the replies to the requests made on it, in order. */
  lemma {:induction false} RepliesOfRun(s: State, steps: seq<Step>, i: NlId)
    requires !RunAll(s, steps).halted
    ensures AllDelivered(s, steps, i) + Queue(RunAll(s, steps).net, i) ==
            Queue(s.net, i) + RepliesOf(AllEffectsOn(s, steps, i))
    decreases steps
  {
    if steps == [] {
      assert [] + Queue(s.net, i) == Queue(s.net, i) + [];
    } else {
      var t := Next(s, steps[0]);
      RepliesOfRun(t, steps[1..], i);
      StepEffect(s, steps[0], i);
      EffectsConcat(EffectsOn(s, steps[0], i), AllEffectsOn(t, steps[1..], i));
      Chain(Delivered(s, steps[0], i), AllDelivered(t, steps[1..], i), Queue(RunAll(s, steps).net, i), Queue(t.net, i),
            RepliesOf(AllEffectsOn(t, steps[1..], i)), Queue(s.net, i), RepliesOf(EffectsOn(s, steps[0], i)));
    }
  }

  lemma Chain<T>(d: seq<T>, ds: seq<T>, last: seq<T>, mid: seq<T>, rs: seq<T>, first: seq<T>, r: seq<T>)
    requires ds + last == mid + rs && d + mid == first + r
    ensures d + ds + last == first + (r + rs)
  {
    assert d + ds + last == d + (ds + last);
    assert d + (mid + rs) == (d + mid) + rs;
  }

  // ---- Well-formed traffic ------------------------------------------------------------------------

  /** Buffer by buffer, the encoding of these messages. */
  ghost predicate Encodes(bufs: seq<Bytes>, traffic: seq<seq<Msg>>, devs: seq<Device>) {
    |bufs| == |traffic| &&
    forall k :: 0 <= k < |bufs| ==> AllWellFormed(traffic[k], devs) && bufs[k] == EncMsgs(traffic[k], devs)
  }

  ghost predicate TrafficWellFormed(traffic: seq<seq<Msg>>, devs: seq<Device>) {
    forall k :: 0 <= k < |traffic| ==> AllWellFormed(traffic[k], devs)
  }

  ghost function TrafficMeaning(traffic: seq<seq<Msg>>, devs: seq<Device>): seq<Effect>
    requires TrafficWellFormed(traffic, devs)
  {
    if traffic == [] then [] else Meanings(traffic[0], devs) + TrafficMeaning(traffic[1..], devs)
  }

  lemma {:induction false} TrafficConcat(a: seq<seq<Msg>>, b: seq<seq<Msg>>, devs: seq<Device>)
    requires TrafficWellFormed(a, devs) && TrafficWellFormed(b, devs)
    ensures TrafficWellFormed(a + b, devs)
    ensures TrafficMeaning(a + b, devs) == TrafficMeaning(a, devs) + TrafficMeaning(b, devs)
  {
    if a == [] {
      assert a + b == b;
    } else {
      TrafficConcat(a[1..], b, devs);
      assert (a + b)[1..] == a[1..] + b;
    }
  }

  /** Walking encoded buffers finds the messages. */
  lemma {:induction false} BuffersRoundTrip(bufs: seq<Bytes>, traffic: seq<seq<Msg>>, devs: seq<Device>)
    requires Encodes(bufs, traffic, devs)
    ensures WalkBuffers(bufs, devs) == Fine(TrafficMeaning(traffic, devs))
  {
    if bufs != [] {
      MsgWalkRoundTrip(traffic[0], devs);
      BuffersRoundTrip(bufs[1..], traffic[1..], devs);
    }
  }

  /** The buffers a step hands to netlink. */
  function Buffers(s: State, step: Step): seq<Bytes> {
    if Request(s, step).None? then []
    else
      var c := CaughtBy(s, step.act.e, step.act.next).value;
      if c.SendTo? then [c.buf] else c.iov
  }

  ghost function AllBuffers(s: State, steps: seq<Step>): seq<Bytes>
    decreases steps
  {
    if steps == [] || s.halted then [] else Buffers(s, steps[0]) + AllBuffers(Next(s, steps[0]), steps[1..])
  }

  lemma StepMeaning(s: State, step: Step, traffic: seq<seq<Msg>>)
    requires Encodes(Buffers(s, step), traffic, s.app.devices)
    ensures EffectsOf(s, step) == TrafficMeaning(traffic, s.app.devices)
  {
    var devs := s.app.devices;
    BuffersRoundTrip(Buffers(s, step), traffic, devs);
    if Request(s, step).Some? && CaughtBy(s, step.act.e, step.act.next).value.SendTo? {
      MsgWalkRoundTrip(traffic[0], devs);
      assert TrafficMeaning(traffic[1..], devs) == [];
    }
  }

  lemma EncodesSplit(a: seq<Bytes>, b: seq<Bytes>, traffic: seq<seq<Msg>>, devs: seq<Device>)
    requires Encodes(a + b, traffic, devs)
    ensures Encodes(a, traffic[..|a|], devs) && Encodes(b, traffic[|a|..], devs)
    ensures traffic[..|a|] + traffic[|a|..] == traffic
  {
    assert forall k :: 0 <= k < |a| ==> (a + b)[k] == a[k];
    forall k | 0 <= k < |b| ensures AllWellFormed(traffic[|a|..][k], devs) && b[k] == EncMsgs(traffic[|a|..][k], devs) {
      assert (a + b)[|a| + k] == b[k] && traffic[|a|..][k] == traffic[|a| + k];
    }
  }

  /** What a run asks of netlink is what its buffers say. */
  lemma {:induction false} RunMeaning(s: State, steps: seq<Step>, traffic: seq<seq<Msg>>)
    requires !RunAll(s, steps).halted && Encodes(AllBuffers(s, steps), traffic, s.app.devices)
    ensures AllEffects(s, steps) == TrafficMeaning(traffic, s.app.devices)
    decreases steps
  {
    if steps != [] {
      var t, bufs, devs := Next(s, steps[0]), Buffers(s, steps[0]), s.app.devices;
      var now, later := traffic[..|bufs|], traffic[|bufs|..];
      EncodesSplit(bufs, AllBuffers(t, steps[1..]), traffic, devs);
      StepEffect(s, steps[0], 0);
      StepMeaning(s, steps[0], now);
      RunMeaning(t, steps[1..], later);
      TrafficConcat(now, later, devs);
    }
  }

  // ---- The forwarding decision ----------------------------------------------------------------------

  /**
   * The route a lookup returns, from the history alone: the gateway last given to the key that wins, through
   * the first interface whose subnet holds that gateway; none if no key wins or no subnet holds it.
   */
  ghost predicate DecidedByHistory(h: seq<RouteOp>, ifs: seq<seq<IfAddr>>, dst: Ipv4, r: Option<Route>) {
    match r
    case Some(route) =>
      route.dst == dst &&
      exists k :: WinsByHistory(h, dst, k) && k in NetEffect(map[], h) && NetEffect(map[], h)[k] == route.gw &&
                  exists a :: IsFirstInterface(ifs, route.gw, route.ifIndex, a) &&
                              ifs[route.ifIndex][a].local == route.src
    case None =>
      forall k :: WinsByHistory(h, dst, k) ==>
                    k in NetEffect(map[], h) && NoInterfaceBefore(ifs, NetEffect(map[], h)[k], |ifs|, 0)
  }

  lemma HistoryDecides(h: seq<RouteOp>, ifs: seq<seq<IfAddr>>, dst: Ipv4)
    requires ValidLengths(ApplyAll([], h))
    ensures DecidedByHistory(h, ifs, dst, OutputOf(Decide(ApplyAll([], h), ifs, dst)))
  {
    var es := ApplyAll([], h);
    match Decide(es, ifs, dst)
    case Via(r) =>
      var b :| IsBest(es, dst, b) && es[b].gw == r.gw;
      BestWins(h, dst, b);
    case NoInterface(e) =>
      var b :| IsBest(es, dst, b) && es[b] == e;
      forall k | WinsByHistory(h, dst, k) ensures k in NetEffect(map[], h) && NetEffect(map[], h)[k] == e.gw {
        WinnerIsBest(h, dst, k, b);
      }
    case NoMatch =>
      forall k | WinsByHistory(h, dst, k) ensures false {
        WinnerByHistory(h, dst, k);
      }
  }

  /** The entry a lookup takes has the key that wins by the history, and the gateway last given to it. */
  lemma BestWins(h: seq<RouteOp>, dst: Ipv4, b: int)
    requires ValidLengths(ApplyAll([], h)) && IsBest(ApplyAll([], h), dst, b)
    ensures var es := ApplyAll([], h);
            WinsByHistory(h, dst, KeyOf(es[b])) && KeyOf(es[b]) in NetEffect(map[], h) &&
            NetEffect(map[], h)[KeyOf(es[b])] == es[b].gw
  {
    var es := ApplyAll([], h);
    HistoryRefinesMap([], h);
    assert Abs([]) == map[];
    AbsAt(es, b);
    WinnerByHistory(h, dst, KeyOf(es[b]));
  }

  lemma WinnerIsBest(h: seq<RouteOp>, dst: Ipv4, k: Key, b: int)
    requires ValidLengths(ApplyAll([], h)) && IsBest(ApplyAll([], h), dst, b) && WinsByHistory(h, dst, k)
    ensures k in NetEffect(map[], h) && NetEffect(map[], h)[k] == ApplyAll([], h)[b].gw
  {
    var es := ApplyAll([], h);
    HistoryRefinesMap([], h);
    WinnerByHistory(h, dst, k);
    BestUnique(es, dst, IndexOf(es, k), b);
    BestWins(h, dst, b);
  }

  /**
   * End to end: after any run from the start of the application in which every buffer sent on any netlink
   * socket is a sequence of well-formed messages, lookups follow the longest prefix over the net effect of
   * the route messages among them.
   */
  lemma RoutesEndToEnd(app: App, p: Pid, steps: seq<Step>, traffic: seq<seq<Msg>>, ifs: seq<seq<IfAddr>>, dst: Ipv4)
    requires !RunAll(Initial(app, p), steps).halted
    requires Encodes(AllBuffers(Initial(app, p), steps), traffic, app.devices)
    ensures var h := OpsOf(TrafficMeaning(traffic, app.devices));
            var table := RunAll(Initial(app, p), steps).table;
            KeysDistinct(table) && Abs(table) == NetEffect(map[], h) &&
            (ValidLengths(table) ==> DecidedByHistory(h, ifs, dst, OutputOf(Decide(table, ifs, dst))))
  {
    var s := Initial(app, p);
    TableOfRun(s, steps);
    RunMeaning(s, steps, traffic);
    var h := OpsOf(TrafficMeaning(traffic, app.devices));
    HistoryRefinesMap([], h);
    assert Abs([]) == map[];
    if ValidLengths(ApplyAll([], h)) {
      HistoryDecides(h, ifs, dst);
    }
  }

  // ---- Acknowledgements -----------------------------------------------------------------------------

  predicate ZeroAck(r: Reply) {
    r == Ack(0)
  }

  function ZeroAcks(rs: seq<Reply>): nat {
    if rs == [] then 0 else (if ZeroAck(rs[0]) then 1 else 0) + ZeroAcks(rs[1..])
  }

  lemma {:induction false} ZeroAcksConcat(a: seq<Reply>, b: seq<Reply>)
    ensures ZeroAcks(a + b) == ZeroAcks(a) + ZeroAcks(b)
  {
    if a == [] {
      assert a + b == b;
    } else {
      assert (a + b)[1..] == a[1..] + b;
      ZeroAcksConcat(a[1..], b);
    }
  }

  predicate NoAck(rs: seq<Reply>) {
    forall i :: 0 <= i < |rs| ==> !rs[i].Ack?
  }

  lemma {:induction false} NoAckCount(rs: seq<Reply>)
    requires NoAck(rs)
    ensures ZeroAcks(rs) == 0
  {
    if rs != [] {
      assert !rs[0].Ack?;
      NoAckCount(rs[1..]);
    }
  }

  /** Dumps acknowledge nothing. */
  predicate DumpsClean(es: seq<Effect>) {
    forall i :: 0 <= i < |es| && es[i].Dump? ==> NoAck(es[i].replies)
  }

  lemma {:induction false} WalkClean(rest: Bytes, devs: seq<Device>)
    requires WalkMsgs(rest, devs).Fine?
    ensures DumpsClean(WalkMsgs(rest, devs).value)
    decreases |rest|
  {
    if MsgOk(rest) {
      WalkClean(Skip(rest, RoundUp4(U32(rest))), devs);
    }
  }

  lemma {:induction false} BuffersClean(iov: seq<Bytes>, devs: seq<Device>)
    requires WalkBuffers(iov, devs).Fine?
    ensures DumpsClean(WalkBuffers(iov, devs).value)
  {
    if iov != [] {
      WalkClean(iov[0], devs);
      BuffersClean(iov[1..], devs);
    }
  }

  /** One zero-error acknowledgement for every route change. */
  lemma {:induction false} AckPerRoute(es: seq<Effect>)
    requires DumpsClean(es)
    ensures ZeroAcks(RepliesOf(es)) == |OpsOf(es)|
  {
    if es != [] {
      ZeroAcksConcat(ReplyOf(es[0]), RepliesOf(es[1..]));
      if es[0].Dump? {
        NoAckCount(es[0].replies);
      }
      AckPerRoute(es[1..]);
    }
  }

  lemma {:induction false} RunClean(s: State, steps: seq<Step>, i: NlId)
    ensures DumpsClean(AllEffectsOn(s, steps, i))
    decreases steps
  {
    if steps != [] && !s.halted {
      RunClean(Next(s, steps[0]), steps[1..], i);
      if Request(s, steps[0]).Some? && Request(s, steps[0]).value.1.Fine? {
        var c := CaughtBy(s, steps[0].act.e, steps[0].act.next).value;
        if c.SendTo? {
          WalkClean(c.buf, s.app.devices);
        } else {
          BuffersClean(c.iov, s.app.devices);
        }
      }
    }
  }

  /** Of the acknowledgements of a socket, delivered or queued, there is one for each of its route messages. */
  lemma AcksEndToEnd(app: App, p: Pid, steps: seq<Step>, i: NlId)
    requires !RunAll(Initial(app, p), steps).halted
    ensures var s := Initial(app, p);
            ZeroAcks(AllDelivered(s, steps, i)) + ZeroAcks(Queue(RunAll(s, steps).net, i)) ==
            |OpsOf(AllEffectsOn(s, steps, i))|
  {
    var s := Initial(app, p);
    RepliesOfRun(s, steps, i);
    ZeroAcksConcat(AllDelivered(s, steps, i), Queue(RunAll(s, steps).net, i));
    RunClean(s, steps, i);
    AckPerRoute(AllEffectsOn(s, steps, i));
    assert [] + RepliesOf(AllEffectsOn(s, steps, i)) == RepliesOf(AllEffectsOn(s, steps, i));
  }

  /** The buffers handed to netlink socket `i` in a run. */
  ghost function AllBuffersOn(s: State, steps: seq<Step>, i: NlId): seq<Bytes>
    decreases steps
  {
    if steps == [] || s.halted then [] else BuffersOn(s, steps[0], i) + AllBuffersOn(Next(s, steps[0]), steps[1..], i)
  }

  function BuffersOn(s: State, step: Step, i: NlId): seq<Bytes> {
    if AsksOf(s, step, i) then Buffers(s, step) else []
  }

  lemma StepMeaningOn(s: State, step: Step, i: NlId, traffic: seq<seq<Msg>>)
    requires Encodes(BuffersOn(s, step, i), traffic, s.app.devices)
    ensures EffectsOn(s, step, i) == TrafficMeaning(traffic, s.app.devices)
  {
    if AsksOf(s, step, i) {
      StepMeaning(s, step, traffic);
    }
  }

  /** What a run asks of one socket is what the buffers sent on it say. */
  lemma {:induction false} RunMeaningOn(s: State, steps: seq<Step>, i: NlId, traffic: seq<seq<Msg>>)
    requires !RunAll(s, steps).halted && Encodes(AllBuffersOn(s, steps, i), traffic, s.app.devices)
    ensures AllEffectsOn(s, steps, i) == TrafficMeaning(traffic, s.app.devices)
    decreases steps
  {
    if steps != [] {
      var t, bufs, devs := Next(s, steps[0]), BuffersOn(s, steps[0], i), s.app.devices;
      var now, later := traffic[..|bufs|], traffic[|bufs|..];
      EncodesSplit(bufs, AllBuffersOn(t, steps[1..], i), traffic, devs);
      StepEffect(s, steps[0], i);
      StepMeaningOn(s, steps[0], i, now);
      RunMeaningOn(t, steps[1..], i, later);
      TrafficConcat(now, later, devs);
    }
  }

  /** How many of the messages ask for a change of the routes. */
  function RouteMsgs(ms: seq<Msg>): nat {
    if ms == [] then 0 else (if ms[0].RouteMsg? then 1 else 0) + RouteMsgs(ms[1..])
  }

  function AllRouteMsgs(traffic: seq<seq<Msg>>): nat {
    if traffic == [] then 0 else RouteMsgs(traffic[0]) + AllRouteMsgs(traffic[1..])
  }

  lemma {:induction false} RouteMsgsCount(ms: seq<Msg>, devs: seq<Device>)
    requires AllWellFormed(ms, devs)
    ensures |OpsOf(Meanings(ms, devs))| == RouteMsgs(ms)
  {
    if ms != [] {
      RouteMsgsCount(ms[1..], devs);
      assert Meanings(ms, devs)[1..] == Meanings(ms[1..], devs);
    }
  }

  lemma {:induction false} TrafficCount(traffic: seq<seq<Msg>>, devs: seq<Device>)
    requires TrafficWellFormed(traffic, devs)
    ensures |OpsOf(TrafficMeaning(traffic, devs))| == AllRouteMsgs(traffic)
  {
    if traffic != [] {
      RouteMsgsCount(traffic[0], devs);
      TrafficCount(traffic[1..], devs);
      EffectsConcat(Meanings(traffic[0], devs), TrafficMeaning(traffic[1..], devs));
    }
  }

  /**
   * After any run in which what is sent on netlink socket `i` are well-formed messages, the socket has acknowledged or
   * is about to acknowledge each route message among them once.
   */
  lemma AcksOfTraffic(app: App, p: Pid, steps: seq<Step>, i: NlId, traffic: seq<seq<Msg>>)
    requires !RunAll(Initial(app, p), steps).halted
    requires Encodes(AllBuffersOn(Initial(app, p), steps, i), traffic, app.devices)
    ensures var s := Initial(app, p);
            ZeroAcks(AllDelivered(s, steps, i)) + ZeroAcks(Queue(RunAll(s, steps).net, i)) == AllRouteMsgs(traffic)
  {
    AcksEndToEnd(app, p, steps, i);
    RunMeaningOn(Initial(app, p), steps, i, traffic);
    TrafficCount(traffic, app.devices);
  }

  /**
   * After any run in which what is sent on netlink socket `i` are well-formed messages, what the socket has delivered
   * and what it still holds are the replies these messages call for, in order: none lost, none repeated, none invented.
   */
  lemma RepliesOfTraffic(app: App, p: Pid, steps: seq<Step>, i: NlId, traffic: seq<seq<Msg>>)
    requires !RunAll(Initial(app, p), steps).halted
    requires Encodes(AllBuffersOn(Initial(app, p), steps, i), traffic, app.devices)
    ensures var s := Initial(app, p);
            AllDelivered(s, steps, i) + Queue(RunAll(s, steps).net, i) ==
            RepliesOf(TrafficMeaning(traffic, app.devices))
  {
    var s := Initial(app, p);
    RepliesFromStart(app, p, steps, i);
    RunMeaningOn(s, steps, i, traffic);
  }

  lemma RepliesFromStart(app: App, p: Pid, steps: seq<Step>, i: NlId)
    requires !RunAll(Initial(app, p), steps).halted
    ensures var s := Initial(app, p);
            AllDelivered(s, steps, i) + Queue(RunAll(s, steps).net, i) == RepliesOf(AllEffectsOn(s, steps, i))
  {
    var s := Initial(app, p);
    RepliesOfRun(s, steps, i);
    EmptyFirst(RepliesOf(AllEffectsOn(s, steps, i)));
  }

  lemma EmptyFirst<T>(a: seq<T>)
    ensures [] + a == a
  {
  }
}
