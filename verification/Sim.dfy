/**
 * The state of one emulated application and of the simulator around it, as values: descriptor
 * tables, ns-3 sockets with their callback slots, pending select operations, scheduled events,
 * and the traced threads, each stopped at the entry or the exit of a system call.
 */
module Sim {
  import opened Base
  import opened Routing
  import opened NetlinkWire
  import PD = PollDetector

  type Pid = nat
  type Fd = int
  type SockId = nat
  type NlId = nat
  type OpId = nat
  type EvId = nat

  const FIRST_FD: int := 100
  const LAST_FD: int := 200
  const EWOULDBLOCK: int := 11
  const NS_PER_SEC: nat := 1000000000

  // ---- System calls ------------------------------------------------------------------

  datatype Timeval = Timeval(sec: nat, usec: nat)

  datatype Family = Inet | NetlinkFamily | OtherFamily

  datatype SockType = Stream | Dgram | Raw | OtherType

  datatype FcntlCmd = SetFlags(nonblock: bool) | GetFlags | OtherCmd

  /** sendto's flags: none, MSG_DONTROUTE alone, or any other. */
  datatype SendFlags = NoFlags | DontRoute | OtherFlags

  /**
   * Its destination: none, an address of the one family the engine converts, or any other, for which it has no
   * address.
   */
  datatype Dest = NoDest | InetDest | OtherDest

  datatype Call =
    | PassThrough(nr: int)
    | Constant(nr: int, value: int)
    | Read(fd: Fd, count: nat)
    | RecvFrom(fd: Fd, length: nat)
    | Write(fd: Fd, count: nat)
    | SendTo(fd: Fd, buf: Bytes, flags: SendFlags, dest: Dest)
    | SendMsg(fd: Fd, iov: seq<Bytes>)
    | RecvMsg(fd: Fd, iovLen: nat)
    | Open(random: bool)
    | Close(fd: Fd)
    | Fcntl(fd: Fd, cmd: FcntlCmd)
    | Socket(family: Family, kind: SockType, route: bool)
    | Listen(fd: Fd)
    | Connect(fd: Fd, inet: bool)
    | Accept(fd: Fd)
    | Select(rset: Option<set<Fd>>, wset: Option<set<Fd>>, eset: Option<set<Fd>>, timeout: Option<Timeval>)
    | NanoSleep(sec: nat, nsec: nat)
    | GetTimeOfDay
    | ClockGetTime(cpuClock: bool)
    | ClockGetRes(cpuClock: bool)
    | Clone
    | Exit
    | ExitGroup
    | Unsupported

  /** The number the poll-loop detector sees; only three of them matter to it. */
  function SysNr(c: Call): int {
    match c
    case PassThrough(nr) => nr
    case Constant(nr, _) => nr
    case Select(_, _, _, _) => PD.SYS_SELECT
    case GetTimeOfDay => PD.SYS_GETTIMEOFDAY
    case _ => 0
  }

  /** How ns-3 and the kernel answer while a handler runs. */
  datatype Answer = Answer(
    ret: int,               // what Listen, Connect, Recv, Send or SendTo returns
    rxAfter: nat,           // receive-available bytes after a Recv
    txAfter: nat,           // send-available bytes after a Send
    connected: Option<bool>, // whether Connect reports success or failure before it returns
    stillListens: bool,     // whether a socket that listened still does after a Connect
    tid: Pid,               // the thread a clone creates
    stray: Call)            // where a thread gets to that is resumed from an exit stop by mistake

  // ---- What a thread sees and why it waits -------------------------------------------

  datatype Result =
    | Kernel
    | Value(rax: int)
    | Selected(count: nat, rset: Option<set<Fd>>, wset: Option<set<Fd>>)
    | SelectTimedOut
    | Clock(sec: nat, sub: nat)
    | Message(len: nat, reply: Reply)

  datatype Stop = AtEntry(call: Call) | AtExit(result: Result)

  /**
   * What will resume a thread. A history variable: no step of the simulator reads it, the
   * invariants compare it with what the event queue and the callback slots really hold.
   */
  datatype Cont =
    | InFlight
    | Resumes(ev: EvId)
    | InSleep(ev: EvId)
    | InSelect(op: OpId)
    | InRecv(fd: Fd)
    | InWrite(fd: Fd)
    | InAccept(fd: Fd)
    | InConnect(fd: Fd)

  datatype Tracee = Tracee(stop: Stop, cont: Cont)

  // ---- Callback slots ----------------------------------------------------------------

  datatype SendCb = NoSend | SelectSend(op: OpId, fd: Fd) | WriteWait(pid: Pid)

  datatype RecvCb = NoRecv | SelectRecv(op: OpId, fd: Fd) | ReadWait(pid: Pid, fd: Fd)

  datatype AcceptCb = NoAccept | DefaultAccept(fd: Fd) | SelectAccept(op: OpId, fd: Fd) | AcceptWait(pid: Pid, fd: Fd)

  datatype ConnectCb = NoConnect | ConnectWait(pid: Pid, fd: Fd)

  /** An ns-3 socket: what is available, its callbacks, and whether it attempts to connect or listens. */
  datatype Sock = Sock(rx: nat, tx: nat, send: SendCb, recv: RecvCb, accept: AcceptCb, connect: ConnectCb,
                       connecting: bool, listens: bool)

  const FRESH_SOCK := Sock(0, 0, NoSend, NoRecv, NoAccept, NoConnect, false, false)

  /** A netlink socket answers the thread that made it, whoever calls. */
  datatype Nl = Nl(owner: Pid, replies: seq<Reply>, recv: NlCb)

  /** The flag and the timeout handle that all closures of one select share. */
  datatype SelectOp = SelectOp(pid: Pid, readsGiven: bool, writesGiven: bool, watchR: set<Fd>, watchW: set<Fd>,
                               handled: bool, timeout: Option<EvId>)

  datatype What = Before(pid: Pid) | SelectTimeout(op: OpId) | SleepDone(pid: Pid) | SocketCleanup(sid: SockId)

  datatype Event = Event(at: nat, what: What)

  datatype FdTable = FdTable(
    available: set<Fd>,
    sockets: map<Fd, SockId>,
    netlinks: map<Fd, NlId>,
    random: set<Fd>,
    tcp: set<Fd>,
    connected: set<Fd>,
    listening: set<Fd>,
    nonblocking: set<Fd>,
    fakeAccepted: map<Fd, SockId>)

  /** The descriptor tables and every ns-3 socket and netlink socket ever made. */
  datatype Net = Net(fds: FdTable, socks: seq<Sock>, nls: seq<Nl>)

  datatype App = App(mayQuit: bool, processing: nat, detection: bool, devices: seq<Device>)

  datatype State = State(
    app: App,
    pid: Pid,
    poll: PD.Poll,
    now: nat,
    halted: bool,
    events: map<EvId, Event>,
    nextEvent: EvId,
    tracees: map<Pid, Tracee>,
    ops: seq<SelectOp>,
    net: Net,
    table: seq<RtEntry>)

  datatype Code = Success | Failure | Delayed | Manual | Error | SystemExit

  datatype Res = Res(s: State, code: Code)

  // ---- Shared pieces -----------------------------------------------------------------

  predicate Emulated(t: FdTable, fd: Fd) {
    fd in t.netlinks || fd in t.sockets || fd in t.random
  }

  function SetStop(s: State, p: Pid, stop: Stop): State {
    if p in s.tracees then s.(tracees := s.tracees[p := s.tracees[p].(stop := stop)]) else s
  }

  function SetCont(s: State, p: Pid, cont: Cont): State {
    if p in s.tracees then s.(tracees := s.tracees[p := s.tracees[p].(cont := cont)]) else s
  }

  /** FAKE: runs thread `p` from its entry stop to its exit stop and plants the result. */
  function Fake(s: State, p: Pid, result: Result, stray: Call): State {
    if p !in s.tracees then s.(halted := true)
    else if s.tracees[p].stop.AtEntry? then SetStop(s, p, AtExit(result))
    else SetStop(s, p, AtEntry(stray))
  }

  /** A served thread is dispatched again after the processing time and the poll-loop delay. */
  function NextDispatch(s: State): nat {
    s.now + s.app.processing + PD.Delay(s.poll.steps)
  }

  function Schedule(s: State, at: nat, what: What): State {
    s.(events := s.events[s.nextEvent := Event(at, what)], nextEvent := s.nextEvent + 1)
  }

  /** An event is scheduled and thread `p` recorded as waiting for it. */
  function HandOver(s: State, p: Pid, at: nat, what: What, c: Cont): State {
    SetCont(Schedule(s, at, what), p, c)
  }

  /** The SUCCESS and FAILURE branches of ProcessStatusCode. */
  function Resume(s: State, p: Pid): State {
    HandOver(s, p, NextDispatch(s), Before(p), Resumes(s.nextEvent))
  }

  function ProcessStatusCode(s: State, code: Code, p: Pid): State {
    match code
    case Success => Resume(s, p)
    case Failure => Resume(s, p)
    case Delayed => s
    case Manual => s
    case Error => s.(halted := true)
    case SystemExit => if s.app.mayQuit then s.(tracees := s.tracees - {p}) else s.(halted := true)
  }

  function WithFds(s: State, t: FdTable): State {
    s.(net := s.net.(fds := t))
  }

  function SetNl(s: State, n: NlId, q: Nl): State
    requires n < |s.net.nls|
  {
    s.(net := s.net.(nls := s.net.nls[n := q]))
  }

  function SetSock(s: State, sid: SockId, k: Sock): State
    requires sid < |s.net.socks|
  {
    s.(net := s.net.(socks := s.net.socks[sid := k]))
  }

  /** What a select closure stores: one descriptor, in one of the sets that were passed. */
  function OneRead(o: SelectOp, fd: Fd): Result {
    Selected(1, if o.readsGiven then Some({fd}) else None, if o.writesGiven then Some({}) else None)
  }

  function OneWrite(o: SelectOp, fd: Fd): Result {
    Selected(1, if o.readsGiven then Some({}) else None, if o.writesGiven then Some({fd}) else None)
  }

  function Cancel(events: map<EvId, Event>, e: Option<EvId>): map<EvId, Event> {
    if e.Some? then events - {e.value} else events
  }

  /** The common tail of select's closures: set the flag, cancel the timeout, answer, resume. */
  function FinishSelect(s: State, op: OpId, faked: Pid, result: Result, stray: Call): State
    requires op < |s.ops|
  {
    var o := s.ops[op];
    var flagged := s.(ops := s.ops[op := o.(handled := true)], events := Cancel(s.events, o.timeout));
    Resume(Fake(flagged, faked, result, stray), o.pid)
  }

  // ---- Callbacks ---------------------------------------------------------------------

  /** Data arrived: `rx` bytes are now available and the receive callback runs. */
  function OnData(s: State, sid: SockId, rx: nat, ans: Answer): State
    requires sid < |s.net.socks|
  {
    var k := s.net.socks[sid];
    var s1 := SetSock(s, sid, k.(rx := rx));
    match k.recv
    case NoRecv => s1
    case SelectRecv(op, fd) =>
      if op >= |s.ops| || s.ops[op].handled then s1
      else
        // the answer goes to the member pid, the resumption to the pid that was saved
        var s2 := FinishSelect(s1, op, s.pid, OneRead(s.ops[op], fd), ans.stray);
        SetSock(s2, sid, k.(rx := rx, recv := NoRecv))
    case ReadWait(p, fd) => SetSock(Resume(Fake(s1, p, Value(ans.ret), ans.stray), p), sid,
                                    k.(rx := ans.rxAfter, recv := NoRecv))
  }

  /** Send space became available and the send callback runs. */
  function OnSpace(s: State, sid: SockId, tx: nat, ans: Answer): State
    requires sid < |s.net.socks|
  {
    var k := s.net.socks[sid];
    var s1 := SetSock(s, sid, k.(tx := tx));
    match k.send
    case NoSend => s1
    case SelectSend(op, fd) =>
      if op >= |s.ops| || s.ops[op].handled then s1
      else
        var s2 := FinishSelect(s1, op, s.ops[op].pid, OneWrite(s.ops[op], fd), ans.stray);
        SetSock(s2, sid, k.(tx := tx, send := NoSend))
    case WriteWait(_) => s1
  }

  /** A connection arrived at a listening socket: a new socket exists and the accept callback runs. */
  function OnConnection(s: State, sid: SockId, ans: Answer): State
    requires sid < |s.net.socks|
  {
    var k, newSid := s.net.socks[sid], |s.net.socks|;
    var s1 := s.(net := s.net.(socks := s.net.socks + [FRESH_SOCK]));
    match k.accept
    case NoAccept => s1
    case DefaultAccept(fd) => WithFds(s1, s.net.fds.(fakeAccepted := s.net.fds.fakeAccepted[fd := newSid]))
    case SelectAccept(op, fd) =>
      if op >= |s.ops| || s.ops[op].handled then s1
      else if fd !in s.net.fds.sockets || s.net.fds.sockets[fd] >= |s.net.socks| then s.(halted := true)
      else
        var l := s.net.fds.sockets[fd];
        var s2 := SetSock(WithFds(s1, s.net.fds.(fakeAccepted := s.net.fds.fakeAccepted[fd := newSid])),
                          l, s1.net.socks[l].(accept := NoAccept));
        FinishSelect(s2, op, s.ops[op].pid, OneRead(s.ops[op], fd), ans.stray)
    case AcceptWait(p, fd) =>
      if s.net.fds.available == {} then s.(halted := true)
      else
        // the closure stays in its slot, and it too answers the member pid
        var new_fd := Least(s.net.fds.available);
        Resume(Fake(WithFds(s1, WithAccepted(s.net.fds, new_fd, newSid)), s.pid, Value(new_fd), ans.stray), p)
  }

  function WithAccepted(t: FdTable, fd: Fd, sid: SockId): FdTable {
    t.(available := t.available - {fd}, sockets := t.sockets[fd := sid], tcp := t.tcp + {fd},
       connected := t.connected + {fd})
  }

  /** A connection attempt ended. */
  function OnConnect(s: State, sid: SockId, ok: bool, ans: Answer): State
    requires sid < |s.net.socks|
  {
    var k := s.net.socks[sid];
    var s1 := SetSock(s, sid, k.(connecting := false));
    match k.connect
    case NoConnect => s1
    case ConnectWait(p, fd) =>
      var s2 := if ok then WithFds(s1, s.net.fds.(connected := s.net.fds.connected + {fd})) else s1;
      Resume(Fake(s2, p, Value(if ok then 0 else -1), ans.stray), p)
  }

  // ---- Handlers ----------------------------------------------------------------------

  function Answered(s: State, p: Pid, result: Result, code: Code, ans: Answer): Res {
    Res(Fake(s, p, result, ans.stray), code)
  }

  /** read and recvfrom on a socket differ only in the code they give for EWOULDBLOCK. */
  function HandleReceive(s: State, p: Pid, fd: Fd, again: Code, ans: Answer): Res
    requires fd in s.net.fds.sockets && s.net.fds.sockets[fd] < |s.net.socks|
  {
    var sid := s.net.fds.sockets[fd];
    var k := s.net.socks[sid];
    if k.rx > 0 then
      Res(SetSock(Resume(Fake(s, p, Value(ans.ret), ans.stray), p), sid, k.(rx := ans.rxAfter, recv := NoRecv)), Manual)
    else if fd in s.net.fds.nonblocking then Answered(s, p, Value(-EWOULDBLOCK), again, ans)
    else Res(SetCont(SetSock(s, sid, k.(recv := ReadWait(p, fd))), p, InRecv(fd)), Delayed)
  }

  predicate Known(n: Net, fd: Fd) {
    fd in n.fds.sockets && n.fds.sockets[fd] < |n.socks|
  }

  predicate KnownNl(n: Net, fd: Fd) {
    fd in n.fds.netlinks && n.fds.netlinks[fd] < |n.nls|
  }

  function HandleRead(s: State, p: Pid, fd: Fd, count: nat, ans: Answer): Res {
    if !Emulated(s.net.fds, fd) then Answered(s, p, Kernel, Success, ans)
    else if fd in s.net.fds.random then Answered(s, p, Value(count), Success, ans)
    else if Known(s.net, fd) && fd in s.net.fds.tcp then HandleReceive(s, p, fd, Failure, ans)
    else Res(s, Error)
  }

  function HandleRecvFrom(s: State, p: Pid, fd: Fd, ans: Answer): Res {
    if !Known(s.net, fd) then Res(s, Error) else HandleReceive(s, p, fd, Success, ans)
  }

  function HandleWrite(s: State, p: Pid, fd: Fd, count: nat, ans: Answer): Res {
    if fd != 1 && fd != 2 && !Emulated(s.net.fds, fd) then Answered(s, p, Kernel, Success, ans)
    else if !Emulated(s.net.fds, fd) then
      if count == 0 then Res(s, Error) else Answered(s, p, Value(count), Success, ans)
    else if fd !in s.net.fds.connected || !Known(s.net, fd) then Res(s, Error)
    else
      var sid := s.net.fds.sockets[fd];
      var k := s.net.socks[sid];
      if k.tx == 0 then
        if fd in s.net.fds.nonblocking then Answered(s, p, Value(-EWOULDBLOCK), Failure, ans)
        else Res(SetCont(SetSock(s, sid, k.(send := WriteWait(p))), p, InWrite(fd)), Delayed)
      else
        var s1 := SetSock(s, sid, k.(tx := ans.txAfter));
        Answered(s1, p, Value(ans.ret), if ans.ret > 0 then Success else Error, ans)
  }

  /** The effects of a netlink request; a dump runs the receive callback of the socket. */
  function NetlinkSend(s: State, fd: Fd, walked: Outcome<seq<Effect>>, returned: int, ans: Answer): Res
    requires KnownNl(s.net, fd)
  {
    match walked
    case Crashed(_) => Res(s, Error)
    case Fine(es) =>
      var n := s.net.fds.netlinks[fd];
      var q := s.net.nls[n];
      var s1 := SetNl(s.(table := RH.ApplyAll(s.table, OpsOf(es))), n, q.(replies := q.replies + RepliesOf(es)));
      var s2 := if Notifies(es) && q.recv.SelectNl? && q.recv.op < |s.ops| && !s.ops[q.recv.op].handled
                then var o := s.ops[q.recv.op];
                     var f := FinishSelect(s1, q.recv.op, o.pid, OneRead(o, q.recv.fd), ans.stray);
                     SetNl(f, n, f.net.nls[n].(recv := NoNl))
                else s1;
      Answered(s2, q.owner, Value(returned), Success, ans)
  }

  import RH = RoutingHistory
  import NL = Netlink

  /** What is left of the length after the walk, as the 32-bit count it is kept in. */
  function LeftoverValue(buf: Bytes): int {
    Leftover(buf, |buf|) % 0x1_0000_0000
  }

  /** A destination that was not converted is a null pointer, which the engine follows. */
  function HandleSendTo(s: State, p: Pid, fd: Fd, buf: Bytes, flags: SendFlags, dest: Dest, ans: Answer): Res {
    if Known(s.net, fd) then
      if flags == OtherFlags || dest == OtherDest then Res(s, Error) else Answered(s, p, Value(ans.ret), Success, ans)
    else if KnownNl(s.net, fd) then
      if flags != NoFlags then Res(s, Error)
      else NetlinkSend(s, fd, WalkMsgs(buf, s.app.devices), LeftoverValue(buf), ans)
    else Res(s, Error)
  }

  function HandleSendMsg(s: State, fd: Fd, iov: seq<Bytes>, ans: Answer): Res {
    if !KnownNl(s.net, fd) then Res(s, Error)
    else NetlinkSend(s, fd, WalkBuffers(iov, s.app.devices), NL.TotalLen(iov), ans)
  }

  function HandleRecvMsg(s: State, fd: Fd, iovLen: nat, ans: Answer): Res {
    if !KnownNl(s.net, fd) then Res(s, Error)
    else
      var n := s.net.fds.netlinks[fd];
      var q := s.net.nls[n];
      if q.replies == [] then Answered(s, q.owner, Value(-1), Failure, ans)
      else if NL.ReplyLen(q.replies[0]) > iovLen then Res(s, Error)
      else
        var s1 := SetNl(s, n, q.(replies := q.replies[1..]));
        Answered(s1, q.owner, Message(NL.ReplyLen(q.replies[0]), q.replies[0]), Success, ans)
  }

  function HandleOpen(s: State, p: Pid, random: bool, ans: Answer): Res {
    if !random then Answered(s, p, Kernel, Success, ans)
    else if s.net.fds.available == {} then Res(s, Error)
    else
      var fd := Least(s.net.fds.available);
      var t := s.net.fds.(available := s.net.fds.available - {fd}, random := s.net.fds.random + {fd});
      Answered(WithFds(s, t), p, Value(fd), Success, ans)
  }

  /** The descriptor leaves every table but the one of fake-accepted connections. */
  function SocketClosed(t: FdTable, fd: Fd): FdTable {
    t.(sockets := t.sockets - {fd}, tcp := t.tcp - {fd}, connected := t.connected - {fd},
       listening := t.listening - {fd}, nonblocking := t.nonblocking - {fd}, available := t.available + {fd})
  }

  function NetlinkClosed(t: FdTable, fd: Fd): FdTable {
    t.(netlinks := t.netlinks - {fd}, available := t.available + {fd})
  }

  function RandomClosed(t: FdTable, fd: Fd): FdTable {
    t.(random := t.random - {fd}, available := t.available + {fd})
  }

  /** The socket itself is disposed of a second later. */
  function CloseSocket(s: State, fd: Fd): State
    requires fd in s.net.fds.sockets
  {
    Schedule(WithFds(s, SocketClosed(s.net.fds, fd)), Later(s.now, 1, 0), SocketCleanup(s.net.fds.sockets[fd]))
  }

  function HandleClose(s: State, p: Pid, fd: Fd, ans: Answer): Res {
    if !Emulated(s.net.fds, fd) then Answered(s, p, Kernel, Success, ans)
    else if fd in s.net.fds.sockets then Answered(CloseSocket(s, fd), p, Value(0), Success, ans)
    else if fd in s.net.fds.netlinks then
      Answered(WithFds(s, NetlinkClosed(s.net.fds, fd)), p, Value(0), Success, ans)
    else Answered(WithFds(s, RandomClosed(s.net.fds, fd)), p, Value(0), Success, ans)
  }

  function HandleFcntl(s: State, p: Pid, fd: Fd, cmd: FcntlCmd, ans: Answer): Res {
    if !Emulated(s.net.fds, fd) then Answered(s, p, Kernel, Success, ans)
    else if cmd.SetFlags? && fd in s.net.fds.netlinks then Answered(s, p, Value(0), Success, ans)
    else if cmd.GetFlags? && fd in s.net.fds.sockets then Answered(s, p, Value(0), Success, ans)
    else if cmd.SetFlags? && fd in s.net.fds.sockets then
      if cmd.nonblock then
        Answered(WithFds(s, s.net.fds.(nonblocking := s.net.fds.nonblocking + {fd})), p, Value(0), Success, ans)
      else Answered(s, p, Value(-1), Failure, ans)
    else Res(s, Error)
  }

  const EPROTONOSUPPORT: int := 93
  const EPROTOTYPE: int := 91
  const EAFNOSUPPORT: int := 97
  const EOPNOTSUPP: int := 95

  /** A new socket behind the least free descriptor. */
  function WithSocket(n: Net, kind: SockType, tx: nat): Net
    requires n.fds.available != {}
  {
    var fd := Least(n.fds.available);
    n.(fds := n.fds.(available := n.fds.available - {fd}, sockets := n.fds.sockets[fd := |n.socks|],
                     tcp := if kind == Stream then n.fds.tcp + {fd} else n.fds.tcp),
       socks := n.socks + [FRESH_SOCK.(tx := tx)])
  }

  function WithNetlink(n: Net, p: Pid): Net
    requires n.fds.available != {}
  {
    var fd := Least(n.fds.available);
    n.(fds := n.fds.(available := n.fds.available - {fd}, netlinks := n.fds.netlinks[fd := |n.nls|]),
       nls := n.nls + [Nl(p, [], NoNl)])
  }

  function HandleSocket(s: State, p: Pid, family: Family, kind: SockType, route: bool, ans: Answer): Res {
    match family
    case Inet =>
      if kind != Dgram && kind != Stream then Answered(s, p, Value(-EPROTONOSUPPORT), Failure, ans)
      else if s.net.fds.available == {} then Res(s, Error)
      else
        Answered(s.(net := WithSocket(s.net, kind, ans.txAfter)), p, Value(Least(s.net.fds.available)), Success, ans)
    case NetlinkFamily =>
      if kind != Raw && kind != Dgram then Answered(s, p, Value(-EPROTOTYPE), Failure, ans)
      else if !route then Answered(s, p, Value(-EPROTONOSUPPORT), Error, ans)
      else if s.net.fds.available == {} then Res(s, Error)
      else
        Answered(s.(net := WithNetlink(s.net, p)), p, Value(Least(s.net.fds.available)), Success, ans)
    case OtherFamily => Answered(s, p, Value(-EAFNOSUPPORT), Failure, ans)
  }

  /** What a successful Listen leaves of the socket. */
  function Listening(k: Sock, fd: Fd): Sock {
    k.(accept := DefaultAccept(fd), listens := true)
  }

  /** The descriptor counts as listening even when ns-3 refuses, and its socket does not listen then. */
  function HandleListen(s: State, p: Pid, fd: Fd, ans: Answer): Res {
    if fd !in s.net.fds.tcp || fd in s.net.fds.listening then Answered(s, p, Value(-EOPNOTSUPP), Failure, ans)
    else if !Known(s.net, fd) then Res(s, Error)
    else
      var sid := s.net.fds.sockets[fd];
      var s1 := WithFds(s, s.net.fds.(listening := s.net.fds.listening + {fd}));
      if ans.ret != 0 then Answered(s1, p, Value(ans.ret), Failure, ans)
      else Answered(SetSock(s1, sid, Listening(s.net.socks[sid], fd)), p, Value(0), Success, ans)
  }

  /** An attempt to connect is under way unless ns-3 refuses without reporting it. */
  predicate Begins(ans: Answer) {
    ans.ret == 0 || ans.connected.Some?
  }

  /** What Connect leaves of the socket. The engine does not look at what it returns. */
  function Attempted(k: Sock, p: Pid, fd: Fd, ans: Answer): Sock {
    k.(connect := ConnectWait(p, fd), connecting := Begins(ans) || k.connecting,
       listens := k.listens && ans.stillListens)
  }

  function HandleConnect(s: State, p: Pid, fd: Fd, inet: bool, ans: Answer): Res {
    if fd !in s.net.fds.sockets then Answered(s, p, Value(-1), Failure, ans)
    else if !inet || !Known(s.net, fd) then Res(s, Error)
    else
      var sid := s.net.fds.sockets[fd];
      var s1 := SetCont(SetSock(s, sid, Attempted(s.net.socks[sid], p, fd, ans)), p, InConnect(fd));
      Res(if ans.connected.Some? then OnConnect(s1, sid, ans.connected.value, ans) else s1, Delayed)
  }

  function HandleAccept(s: State, p: Pid, fd: Fd, ans: Answer): Res {
    if fd !in s.net.fds.listening || !Known(s.net, fd) then Res(s, Error)
    else if fd in s.net.fds.fakeAccepted then
      if s.net.fds.available == {} then Res(s, Error)
      else
        var new_fd, sid := Least(s.net.fds.available), s.net.fds.fakeAccepted[fd];
        var t := WithAccepted(s.net.fds.(fakeAccepted := s.net.fds.fakeAccepted - {fd}), new_fd, sid);
        Answered(WithFds(s, t), p, Value(new_fd), Success, ans)
    else if fd in s.net.fds.nonblocking then Answered(s, p, Value(-EWOULDBLOCK), Failure, ans)
    else
      var sid := s.net.fds.sockets[fd];
      Res(SetCont(SetSock(s, sid, s.net.socks[sid].(accept := AcceptWait(p, fd))), p, InAccept(fd)), Delayed)
  }

  function Later(now: nat, sec: nat, nsec: nat): nat {
    now + sec * NS_PER_SEC + nsec
  }

  function HandleNanoSleep(s: State, p: Pid, sec: nat, nsec: nat): Res {
    Res(HandOver(s, p, Later(s.now, sec, nsec), SleepDone(p), InSleep(s.nextEvent)), Delayed)
  }

  /** Seconds and microseconds of the virtual clock. */
  function MicroClock(now: nat): Result {
    Clock(now / NS_PER_SEC, now / 1000 - now / NS_PER_SEC * 1000000)
  }

  /** Seconds and nanoseconds of the virtual clock. */
  function NanoClock(now: nat): Result {
    Clock(now / NS_PER_SEC, now - now / NS_PER_SEC * NS_PER_SEC)
  }

  /**
   * Neither clock_gettime nor clock_getres takes the thread to its exit stop: the first dispatch
   * leaves it at the entry, the next one finds it at the exit of the same call and stores again.
   */
  function StoreOnly(s: State, p: Pid, result: Result): Res {
    Res(if p in s.tracees && s.tracees[p].stop.AtExit? then SetStop(s, p, AtExit(result)) else s, Success)
  }

  function HandleClockGetTime(s: State, p: Pid, cpuClock: bool, ans: Answer): Res {
    if cpuClock then Answered(s, p, Value(-1), Failure, ans) else StoreOnly(s, p, NanoClock(s.now))
  }

  function HandleClockGetRes(s: State, p: Pid, cpuClock: bool, ans: Answer): Res {
    if cpuClock then Answered(s, p, Value(-1), Failure, ans) else StoreOnly(s, p, Clock(0, 10))
  }

  /** A cloned thread stops for the first time after the clone has returned in it. */
  function NewThread(s: State, tid: Pid): State {
    s.(tracees := s.tracees[tid := Tracee(AtExit(Kernel), InFlight)])
  }

  /** The new thread's first dispatch is scheduled before the parent's next one. */
  function HandleClone(s: State, p: Pid, ans: Answer): Res {
    var s1 := Fake(s, p, Value(ans.tid), ans.stray);
    Res(HandOver(NewThread(s1, ans.tid), ans.tid, Later(s.now, 0, 100), Before(ans.tid), Resumes(s1.nextEvent)),
        Success)
  }

  // ---- select ------------------------------------------------------------------------

  function Given(o: Option<set<Fd>>): set<Fd> {
    if o.Some? then o.value else {}
  }

  predicate ReadableSocket(n: Net, fd: Fd) {
    Known(n, fd) && (n.socks[n.fds.sockets[fd]].rx > 0 || fd in n.fds.fakeAccepted)
  }

  predicate ReadableNl(n: Net, fd: Fd) {
    KnownNl(n, fd) && n.nls[n.fds.netlinks[fd]].replies != []
  }

  predicate Readable(n: Net, fd: Fd) {
    ReadableSocket(n, fd) || ReadableNl(n, fd)
  }

  predicate Writable(n: Net, fd: Fd) {
    Known(n, fd) && n.socks[n.fds.sockets[fd]].tx > 0
  }

  /** The requested descriptors that are emulated. */
  function WatchR(t: FdTable, rset: Option<set<Fd>>): set<Fd> {
    set f | f in Given(rset) && (f in t.sockets || f in t.netlinks)
  }

  function WatchW(t: FdTable, wset: Option<set<Fd>>): set<Fd> {
    set f | f in Given(wset) && f in t.sockets
  }

  function ReadyR(n: Net, rset: Option<set<Fd>>): set<Fd> {
    set f | f in WatchR(n.fds, rset) && Readable(n, f)
  }

  function ReadyW(n: Net, wset: Option<set<Fd>>): set<Fd> {
    set f | f in WatchW(n.fds, wset) && Writable(n, f)
  }

  predicate MayBlock(timeout: Option<Timeval>) {
    timeout.None? || timeout.value.sec != 0 || timeout.value.usec != 0
  }

  /**
   * When the call is given up: an emulated socket in the exception set always; an emulated netlink
   * descriptor only if the call may block, no socket is ready, and no ready netlink descriptor
   * comes at or before it.
   */
  ghost predicate SelectFails(n: Net, rset: Option<set<Fd>>, wset: Option<set<Fd>>, eset: Option<set<Fd>>,
                              timeout: Option<Timeval>)
  {
    (exists f :: f in Given(eset) && f in n.fds.sockets) ||
    (MayBlock(timeout) &&
     ReadyW(n, wset) == {} && (forall f :: f in Given(rset) ==> !ReadableSocket(n, f)) &&
     exists e :: e in Given(eset) && e in n.fds.netlinks &&
                 forall r :: r in Given(rset) && r <= e ==> !ReadableNl(n, r))
  }

  /** The descriptor behind a socket. */
  ghost predicate IsFdOf<T>(m: map<Fd, T>, fd: Fd, x: T) {
    fd in m && m[fd] == x
  }

  /** A socket after select has put its closures into the slots of the watched descriptors. */
  ghost function WatchedSock(n: Net, sid: SockId, op: OpId, wr: set<Fd>, ww: set<Fd>): Sock
    requires sid < |n.socks|
  {
    var k := n.socks[sid];
    if f :| IsFdOf(n.fds.sockets, f, sid) then
      k.(send := if f in ww then SelectSend(op, f) else k.send,
         accept := if f in wr && f in n.fds.listening then SelectAccept(op, f) else k.accept,
         recv := if f in wr && f !in n.fds.listening then SelectRecv(op, f) else k.recv)
    else k
  }

  ghost function WatchedNl(net: Net, n: NlId, op: OpId, wr: set<Fd>): Nl
    requires n < |net.nls|
  {
    var q := net.nls[n];
    if f :| IsFdOf(net.fds.netlinks, f, n) then
      q.(recv := if f in wr then SelectNl(op, f) else q.recv)
    else q
  }

  ghost function WatchedNet(n: Net, op: OpId, wr: set<Fd>, ww: set<Fd>): Net {
    n.(socks := seq(|n.socks|, i requires 0 <= i < |n.socks| => WatchedSock(n, i, op, wr, ww)),
       nls := seq(|n.nls|, i requires 0 <= i < |n.nls| => WatchedNl(n, i, op, wr)))
  }

  function NewSelect(s: State, p: Pid, rset: Option<set<Fd>>, wset: Option<set<Fd>>,
                     timeout: Option<Timeval>): SelectOp {
    SelectOp(p, rset.Some?, wset.Some?, WatchR(s.net.fds, rset), WatchW(s.net.fds, wset), false,
             if timeout.Some? then Some(s.nextEvent) else None)
  }

  /** The timeout, if there is one, as an event. */
  function Timed(s: State, op: OpId, timeout: Option<Timeval>): State {
    if timeout.None? then s
    else Schedule(s, Later(s.now, timeout.value.sec, timeout.value.usec * 1000), SelectTimeout(op))
  }

  /** Nothing watched is ready: every watched slot gets a closure of the new operation. */
  ghost function BlockInSelect(s: State, p: Pid, rset: Option<set<Fd>>, wset: Option<set<Fd>>,
                               timeout: Option<Timeval>): State
  {
    var op, o := |s.ops|, NewSelect(s, p, rset, wset, timeout);
    var s1 := s.(net := WatchedNet(s.net, op, o.watchR, o.watchW), ops := s.ops + [o]);
    SetCont(Timed(s1, op, timeout), p, InSelect(op))
  }

  /** The ready descriptors and how many they are. */
  function SelectAnswer(n: Net, rset: Option<set<Fd>>, wset: Option<set<Fd>>): Result {
    var rr, rw := ReadyR(n, rset), ReadyW(n, wset);
    Selected(|rr| + |rw|, if rset.Some? then Some(rr) else None, if wset.Some? then Some(rw) else None)
  }

  predicate NothingReady(n: Net, rset: Option<set<Fd>>, wset: Option<set<Fd>>) {
    ReadyR(n, rset) == {} && ReadyW(n, wset) == {}
  }

  predicate NothingWatched(t: FdTable, rset: Option<set<Fd>>, wset: Option<set<Fd>>) {
    WatchR(t, rset) == {} && WatchW(t, wset) == {}
  }

  /** What select comes to, in terms of the ready and watched sets only. */
  ghost function HandleSelect(s: State, p: Pid, rset: Option<set<Fd>>, wset: Option<set<Fd>>,
                              eset: Option<set<Fd>>, timeout: Option<Timeval>, ans: Answer): Res
  {
    if SelectFails(s.net, rset, wset, eset, timeout) then Res(s, Error)
    else if MayBlock(timeout) && NothingReady(s.net, rset, wset) && !NothingWatched(s.net.fds, rset, wset) then
      Res(BlockInSelect(s, p, rset, wset, timeout), Delayed)
    else Answered(s, p, SelectAnswer(s.net, rset, wset), Success, ans)
  }

  // ---- Dispatch ----------------------------------------------------------------------

  ghost function Handle(s: State, p: Pid, c: Call, ans: Answer): Res {
    match c
    case PassThrough(_) => Answered(s, p, Kernel, Success, ans)
    case Constant(_, v) => Answered(s, p, Value(v), Success, ans)
    case Read(fd, count) => HandleRead(s, p, fd, count, ans)
    case RecvFrom(fd, _) => HandleRecvFrom(s, p, fd, ans)
    case Write(fd, count) => HandleWrite(s, p, fd, count, ans)
    case SendTo(fd, buf, flags, dest) => HandleSendTo(s, p, fd, buf, flags, dest, ans)
    case SendMsg(fd, iov) => HandleSendMsg(s, fd, iov, ans)
    case RecvMsg(fd, n) => HandleRecvMsg(s, fd, n, ans)
    case Open(random) => HandleOpen(s, p, random, ans)
    case Close(fd) => HandleClose(s, p, fd, ans)
    case Fcntl(fd, cmd) => HandleFcntl(s, p, fd, cmd, ans)
    case Socket(family, kind, route) => HandleSocket(s, p, family, kind, route, ans)
    case Listen(fd) => HandleListen(s, p, fd, ans)
    case Connect(fd, inet) => HandleConnect(s, p, fd, inet, ans)
    case Accept(fd) => HandleAccept(s, p, fd, ans)
    case Select(r, w, e, t) => HandleSelect(s, p, r, w, e, t, ans)
    case NanoSleep(sec, nsec) => HandleNanoSleep(s, p, sec, nsec)
    case GetTimeOfDay => Answered(s, p, MicroClock(s.now), Success, ans)
    case ClockGetTime(cpu) => HandleClockGetTime(s, p, cpu, ans)
    case ClockGetRes(cpu) => HandleClockGetRes(s, p, cpu, ans)
    case Clone => HandleClone(s, p, ans)
    case Exit => Res(s, Success)
    case ExitGroup => Res(s, SystemExit)
    case Unsupported => Res(s, Error)
  }

  /** The thread moved to its next stop: a new call, or the exit of the call it was entering. */
  function Arrive(s: State, p: Pid, next: Call): State
    requires p in s.tracees
  {
    var t := s.tracees[p];
    s.(pid := p, tracees := s.tracees[p := Tracee(if t.stop.AtExit? then AtEntry(next) else AtExit(Kernel), InFlight)])
  }

  /** The call number read at that stop: at an exit stop it is still the call being left. */
  function Caught(s: State, p: Pid, next: Call): Call
    requires p in s.tracees
  {
    if s.tracees[p].stop.AtExit? then next else s.tracees[p].stop.call
  }

  function ObserveCall(s: State, c: Call): State {
    if s.app.detection then s.(poll := PD.Observe(s.poll, SysNr(c))) else s
  }

  ghost function HandleSyscallBefore(s: State, p: Pid, next: Call, ans: Answer): State {
    if p !in s.tracees then s.(pid := p)
    else if s.tracees[p].stop == AtEntry(Exit) then s.(pid := p, tracees := s.tracees - {p})
    else
      var c := Caught(s, p, next);
      var r := Handle(ObserveCall(Arrive(s, p, next), c), p, c, ans);
      ProcessStatusCode(r.s, r.code, p)
  }

  // ---- Steps and runs ----------------------------------------------------------------

  datatype Action =
    | Fire(e: EvId, next: Call)                 // the simulator runs a scheduled event
    | Data(at: nat, sid: SockId, rx: nat)       // ns-3 delivers data to a socket
    | Space(at: nat, sid: SockId, tx: nat)      // ns-3 frees send space
    | Connection(at: nat, sid: SockId)          // ns-3 completes an incoming connection
    | ConnectEnds(at: nat, sid: SockId, ok: bool) // ns-3 ends a connection attempt

  datatype Step = Step(act: Action, ans: Answer)

  /** The earliest event, ties in insertion order. */
  predicate IsNext(events: map<EvId, Event>, e: EvId) {
    e in events &&
    forall f :: f in events ==> events[e].at < events[f].at || (events[e].at == events[f].at && e <= f)
  }

  ghost function Next(s: State, step: Step): State {
    var ans := step.ans;
    match step.act
    case Fire(e, next) =>
      if e !in s.events then s
      else
        var s1 := s.(now := s.events[e].at, events := s.events - {e});
        (match s.events[e].what
         case Before(p) => HandleSyscallBefore(s1, p, next, ans)
         case SelectTimeout(op) =>
           if op >= |s.ops| || s.ops[op].handled then s1
           else FinishSelect(s1, op, s.ops[op].pid, SelectTimedOut, ans.stray)
         case SleepDone(p) => Resume(Fake(s1, p, Value(0), ans.stray), p)
         case SocketCleanup(_) => s1)
    case Data(at, sid, rx) => if sid < |s.net.socks| then OnData(s.(now := at), sid, rx, ans) else s
    case Space(at, sid, tx) => if sid < |s.net.socks| then OnSpace(s.(now := at), sid, tx, ans) else s
    case Connection(at, sid) => if sid < |s.net.socks| then OnConnection(s.(now := at), sid, ans) else s
    case ConnectEnds(at, sid, ok) => if sid < |s.net.socks| then OnConnect(s.(now := at), sid, ok, ans) else s
  }

  /** Once the simulator has stopped nothing happens any more. */
  ghost function RunAll(s: State, steps: seq<Step>): State
    decreases steps
  {
    if steps == [] || s.halted then s else RunAll(Next(s, steps[0]), steps[1..])
  }

  /** The descriptors the simulator hands out. */
  predicate InRange(f: Fd) {
    FIRST_FD <= f < LAST_FD
  }

  function AllFds(): set<Fd> {
    set f: Fd | FIRST_FD <= f < LAST_FD && InRange(f)
  }

  /** The application has just been started: one thread, caught at its first stop at time zero. */
  function Initial(app: App, p: Pid): State {
    State(app, p, PD.FRESH, 0, false, map[0 := Event(0, Before(p))], 1,
          map[p := Tracee(AtExit(Kernel), Resumes(0))], [],
          Net(FdTable(AllFds(), map[], map[], {}, {}, {}, {}, {}, map[]), [], []), [])
  }
}
