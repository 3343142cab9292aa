/** What programs are told by the calls that move data: what ns-3 has taken or given, or a netlink socket. */
module Transfers {
  import opened Base
  import opened NetlinkWire
  import opened NetlinkCodec
  import opened NetlinkReplies
  import opened Sim
  import opened SimInv
  import opened SimCallbacks
  import opened SimServing
  import opened SimRun
  import opened Answers
  import NL = Netlink

  /** The socket behind a descriptor, and the network with another one there. */
  function Behind(n: Net, fd: Fd): Sock
    requires Known(n, fd)
  {
    n.socks[n.fds.sockets[fd]]
  }

  function Changed(n: Net, fd: Fd, k: Sock): Net
    requires Known(n, fd)
  {
    n.(socks := n.socks[n.fds.sockets[fd] := k])
  }

  // ---- Receiving ----------------------------------------------------------------------------------

  /** read wants a stream socket, recvfrom any. */
  predicate Receives(n: Net, c: Call) {
    (c.Read? && c.fd in n.fds.tcp && c.fd !in n.fds.random && Known(n, c.fd)) || (c.RecvFrom? && Known(n, c.fd))
  }

  /**
   * If data are there, as many as ns-3 gives, and what is left is left. If none are, a nonblocking socket says so, and
   * on any other the thread waits with its closure in the slot.
   */
  lemma ReceiveAnswers(s: State, e: EvId, p: Pid, c: Call, ans: Answer)
    requires Enters(s, e, p, c, ans) && Receives(s.net, c)
    ensures var t, k := Then(s, e, c, ans), Behind(s.net, c.fd);
            t == if k.rx > 0
                 then Told(s, e, p, c, Value(ans.ret), Changed(s.net, c.fd, k.(rx := ans.rxAfter, recv := NoRecv)))
                 else if c.fd in s.net.fds.nonblocking then Told(s, e, p, c, Value(-11), s.net)
                 else Waits(s, e, p, c, InRecv(c.fd), Changed(s.net, c.fd, k.(recv := ReadWait(p, c.fd))))
  {
    var k := Behind(s.net, c.fd);
    if k.rx > 0 {
      DataAnswers(s, e, p, c, ans);
    } else if c.fd in s.net.fds.nonblocking {
      TellsWith(s, e, p, c, ans, Value(-11), Again(c), s.net);
    } else {
      WaitsWith(s, e, p, c, ans, InRecv(c.fd), Changed(s.net, c.fd, k.(recv := ReadWait(p, c.fd))));
    }
  }

  /** read reports a refusal as a failure, recvfrom as a success, which makes no difference to the program. */
  function Again(c: Call): Code {
    if c.Read? then Failure else Success
  }

  lemma DataAnswers(s: State, e: EvId, p: Pid, c: Call, ans: Answer)
    requires Enters(s, e, p, c, ans) && Receives(s.net, c) && Behind(s.net, c.fd).rx > 0
    ensures var k := Behind(s.net, c.fd);
            Then(s, e, c, ans) ==
            Told(s, e, p, c, Value(ans.ret), Changed(s.net, c.fd, k.(rx := ans.rxAfter, recv := NoRecv)))
  {
    Runs(s, e, p, c, ans);
    TakenForm(Answers.Entered(s, e, p, c), p, c.fd, Again(c), ans);
    AnsweredForm(s, e, p, c, ans, Value(ans.ret), Success, s.net);
  }

  /** Data that are there: answered and scheduled, and then the socket changes. */
  lemma TakenForm(d: State, p: Pid, fd: Fd, again: Code, ans: Answer)
    requires Known(d.net, fd) && Behind(d.net, fd).rx > 0
    ensures var r := HandleReceive(d, p, fd, again, ans);
            var a := Answered(d.(net := d.net), p, Value(ans.ret), Success, ans);
            r.code == Manual &&
            r.s == ProcessStatusCode(a.s, Success, p)
                   .(net := Changed(d.net, fd, Behind(d.net, fd).(rx := ans.rxAfter, recv := NoRecv)))
  {
    FakeNet(d, d.net, p, Value(ans.ret), ans.stray);
    ResumeNet(Fake(d, p, Value(ans.ret), ans.stray), d.net, p);
  }

  lemma WaitsWith(s: State, e: EvId, p: Pid, c: Call, ans: Answer, cont: Cont, n: Net)
    requires Enters(s, e, p, c, ans)
    requires var d := Answers.Entered(s, e, p, c); Handle(d, p, c, ans) == Res(SetCont(d.(net := n), p, cont), Delayed)
    ensures Then(s, e, c, ans) == Answers.Waits(s, e, p, c, cont, n)
  {
    Runs(s, e, p, c, ans);
    WaitsForm(s, e, p, c, cont, n);
  }

  lemma WaitsForm(s: State, e: EvId, p: Pid, c: Call, cont: Cont, n: Net)
    requires e in s.events
    ensures SetCont(Answers.Entered(s, e, p, c).(net := n), p, cont) == Answers.Waits(s, e, p, c, cont, n)
  {
    assert SetCont(Answers.Entered(s, e, p, c).(net := n), p, cont).tracees ==
           Answers.Waits(s, e, p, c, cont, n).tracees;
  }

  /** Anything else the simulator holds cannot be read: a datagram socket or a netlink socket stops it. */
  lemma ReceiveStops(s: State, e: EvId, p: Pid, c: Call, ans: Answer)
    requires Enters(s, e, p, c, ans)
    requires (c.Read? && !Outside(s.net.fds, c.fd) && c.fd !in s.net.fds.random && c.fd !in s.net.fds.tcp) ||
             (c.RecvFrom? && c.fd !in s.net.fds.sockets)
    ensures Then(s, e, c, ans).halted
  {
    StopsWith(s, e, p, c, ans);
  }

  // ---- Sending ------------------------------------------------------------------------------------

  /**
   * write to a connected socket: what ns-3 says it has taken, whatever was asked for; nothing taken stops the
   * simulator. Without room a nonblocking socket says so, and on any other the thread waits.
   */
  lemma WriteAnswers(s: State, e: EvId, p: Pid, c: Call, ans: Answer)
    requires Enters(s, e, p, c, ans) && c.Write? && c.fd in s.net.fds.connected && Known(s.net, c.fd)
    ensures var t, k := Then(s, e, c, ans), Behind(s.net, c.fd);
            if k.tx == 0 then
              t == if c.fd in s.net.fds.nonblocking then Told(s, e, p, c, Value(-11), s.net)
                   else Answers.Waits(s, e, p, c, InWrite(c.fd), Changed(s.net, c.fd, k.(send := WriteWait(p))))
            else if ans.ret <= 0 then t.halted
            else t == Told(s, e, p, c, Value(ans.ret), Changed(s.net, c.fd, k.(tx := ans.txAfter)))
  {
    var k := Behind(s.net, c.fd);
    if k.tx == 0 {
      if c.fd in s.net.fds.nonblocking {
        TellsWith(s, e, p, c, ans, Value(-11), Failure, s.net);
      } else {
        WaitsWith(s, e, p, c, ans, InWrite(c.fd), Changed(s.net, c.fd, k.(send := WriteWait(p))));
      }
    } else if ans.ret <= 0 {
      StopsWith(s, e, p, c, ans);
    } else {
      TellsWith(s, e, p, c, ans, Value(ans.ret), Success, Changed(s.net, c.fd, k.(tx := ans.txAfter)));
    }
  }

  lemma WriteStops(s: State, e: EvId, p: Pid, c: Call, ans: Answer)
    requires Enters(s, e, p, c, ans) && c.Write? && !Outside(s.net.fds, c.fd) && c.fd !in s.net.fds.connected
    ensures Then(s, e, c, ans).halted
  {
    StopsWith(s, e, p, c, ans);
  }

  /** A datagram: what ns-3 says. Flags but MSG_DONTROUTE, and addresses it cannot convert, stop the simulator. */
  lemma DatagramAnswers(s: State, e: EvId, p: Pid, c: Call, ans: Answer)
    requires Enters(s, e, p, c, ans) && c.SendTo? && Known(s.net, c.fd)
    ensures if c.flags == OtherFlags || c.dest == OtherDest then Then(s, e, c, ans).halted
            else Then(s, e, c, ans) == Told(s, e, p, c, Value(ans.ret), s.net)
  {
    if c.flags == OtherFlags || c.dest == OtherDest {
      StopsWith(s, e, p, c, ans);
    } else {
      TellsWith(s, e, p, c, ans, Value(ans.ret), Success, s.net);
    }
  }

  // ---- Netlink ------------------------------------------------------------------------------------

  /** The buffers of a vector, one behind the other. */
  function Flat(iov: seq<Bytes>): Bytes {
    if iov == [] then [] else iov[0] + Flat(iov[1..])
  }

  lemma {:induction false} TotalIsFlat(iov: seq<Bytes>)
    ensures NL.TotalLen(iov) == |Flat(iov)|
  {
    if iov != [] {
      TotalIsFlat(iov[1..]);
    }
  }

  /** Nothing but its own answer happens to a thread that sends. */
  lemma SendTells(d: State, p: Pid, fd: Fd, walked: Outcome<seq<Effect>>, returned: int, ans: Answer)
    requires Active(d, {p}) && p in d.tracees && d.tracees[p].stop.AtEntry? && KnownNl(d.net, fd) && walked.Fine?
    requires d.net.nls[d.net.fds.netlinks[fd]].owner == p
    ensures var r := NetlinkSend(d, fd, walked, returned, ans);
            r.code == Success && !r.s.halted && p in r.s.tracees && r.s.tracees[p].stop == AtExit(Value(returned))
  {
    var n, es := d.net.fds.netlinks[fd], walked.value;
    var r := d.net.nls[n].recv;
    NlWatcher(d, fd);
    if Notifies(es) && r.SelectNl? && !d.ops[r.op].handled {
      NetlinkWakes(d, p, fd, es, ans);
      NotifyForm(d, fd, es, ans);
    }
  }

  lemma SendRuns(s: State, e: EvId, p: Pid, c: Call, ans: Answer, walked: Outcome<seq<Effect>>, returned: int)
    requires Enters(s, e, p, c, ans) && (c.SendMsg? || c.SendTo?) && KnownNl(s.net, c.fd) && OwnCall(s.net, p, c)
    requires Handle(Answers.Entered(s, e, p, c), p, c, ans) ==
             NetlinkSend(Answers.Entered(s, e, p, c), c.fd, walked, returned, ans)
    ensures if walked.Crashed? then Then(s, e, c, ans).halted
            else TellsAtExit(Then(s, e, c, ans), p, Value(returned))
  {
    var d := Answers.Entered(s, e, p, c);
    Runs(s, e, p, c, ans);
    DispatchedActive(s, e, p, c);
    assert Dispatched(s, e, p, c) == d;
    if walked.Fine? {
      SendTells(d, p, c.fd, walked, returned, ans);
      ScheduledForm(NetlinkSend(d, c.fd, walked, returned, ans).s, p);
    }
  }

  /** The thread has been told `result` and is scheduled. */
  ghost predicate TellsAtExit(t: State, p: Pid, result: Result) {
    !t.halted && p in t.tracees && t.tracees[p].stop == AtExit(result) &&
    t.tracees[p].cont.Resumes? && t.tracees[p].cont.ev in t.events && t.events[t.tracees[p].cont.ev].what == Before(p)
  }

  lemma ScheduledForm(r: State, p: Pid)
    requires !r.halted && p in r.tracees && r.tracees[p].stop.AtExit?
    ensures TellsAtExit(ProcessStatusCode(r, Success, p), p, r.tracees[p].stop.result)
  {
  }

  /** sendmsg on a netlink socket of the caller's: as many bytes as its buffers hold. */
  lemma SendMsgAnswers(s: State, e: EvId, p: Pid, c: Call, ans: Answer)
    requires Enters(s, e, p, c, ans) && c.SendMsg?
    ensures KnownNl(s.net, c.fd) && OwnCall(s.net, p, c) ==>
              if WalkBuffers(c.iov, s.app.devices).Crashed? then Then(s, e, c, ans).halted
              else TellsAtExit(Then(s, e, c, ans), p, Value(|Flat(c.iov)|))
    ensures c.fd !in s.net.fds.netlinks ==> Then(s, e, c, ans).halted
  {
    if KnownNl(s.net, c.fd) && OwnCall(s.net, p, c) {
      TotalIsFlat(c.iov);
      SendRuns(s, e, p, c, ans, WalkBuffers(c.iov, s.app.devices), NL.TotalLen(c.iov));
    } else if c.fd !in s.net.fds.netlinks {
      StopsWith(s, e, p, c, ans);
    }
  }

  /** sendto: what the walk has left over, so the length only of a buffer that does not start with a message, */
  lemma SendToAnswers(s: State, e: EvId, p: Pid, c: Call, ans: Answer)
    requires Enters(s, e, p, c, ans) && c.SendTo? && c.flags == NoFlags && KnownNl(s.net, c.fd) && OwnCall(s.net, p, c)
    requires |c.buf| < 0x8000_0000
    ensures if WalkMsgs(c.buf, s.app.devices).Crashed? then Then(s, e, c, ans).halted
            else exists left: int ::
                   TellsAtExit(Then(s, e, c, ans), p, Value(left)) && (left == |c.buf| <==> !MsgOk(c.buf))
  {
    SendToRuns(s, e, p, c, ans);
    SendToReturn(c.buf);
  }

  /** and zero of one that holds messages and nothing else. */
  lemma RequestAnswers(s: State, e: EvId, p: Pid, c: Call, ans: Answer, ms: seq<Msg>)
    requires Enters(s, e, p, c, ans) && c.SendTo? && c.flags == NoFlags && KnownNl(s.net, c.fd) && OwnCall(s.net, p, c)
    requires AllWellFormed(ms, s.app.devices) && c.buf == EncMsgs(ms, s.app.devices)
    ensures TellsAtExit(Then(s, e, c, ans), p, Value(0))
  {
    RequestWalked(c.buf, ms, s.app.devices);
    SendToRuns(s, e, p, c, ans);
  }

  lemma RequestWalked(buf: Bytes, ms: seq<Msg>, devs: seq<Device>)
    requires AllWellFormed(ms, devs) && buf == EncMsgs(ms, devs)
    ensures WalkMsgs(buf, devs).Fine? && LeftoverValue(buf) == 0
  {
    MsgWalkRoundTrip(ms, devs);
    NothingLeft(ms, devs);
  }

  lemma SendToRuns(s: State, e: EvId, p: Pid, c: Call, ans: Answer)
    requires Enters(s, e, p, c, ans) && c.SendTo? && c.flags == NoFlags && KnownNl(s.net, c.fd) && OwnCall(s.net, p, c)
    ensures if WalkMsgs(c.buf, s.app.devices).Crashed? then Then(s, e, c, ans).halted
            else TellsAtExit(Then(s, e, c, ans), p, Value(LeftoverValue(c.buf)))
  {
    SendRuns(s, e, p, c, ans, WalkMsgs(c.buf, s.app.devices), LeftoverValue(c.buf));
  }

  lemma {:induction false} NothingLeft(ms: seq<Msg>, devs: seq<Device>)
    requires AllWellFormed(ms, devs)
    ensures Leftover(EncMsgs(ms, devs), |EncMsgs(ms, devs)|) == 0
    decreases ms
  {
    if ms != [] {
      var m, tail := EncMsg(ms[0], devs), EncMsgs(ms[1..], devs);
      MsgReadsBack(ms[0], devs, tail);
      LeftoverStep(m, tail);
      NothingLeft(ms[1..], devs);
    }
  }

  lemma LeftoverStep(m: Bytes, tail: Bytes)
    requires |m| % 4 == 0 && MsgOk(m + tail) && Skip(m + tail, RoundUp4(U32(m + tail))) == tail
    ensures Leftover(m + tail, |m + tail|) == Leftover(tail, |tail|)
  {
  }

  /** recvmsg: the oldest reply and its length, -1 if there is none; a buffer too small for it stops the simulator. */
  lemma RecvMsgAnswers(s: State, e: EvId, p: Pid, c: Call, ans: Answer, junk: Bytes)
    requires Enters(s, e, p, c, ans) && c.RecvMsg? && KnownNl(s.net, c.fd) && OwnCall(s.net, p, c)
    ensures var t, n, i := Then(s, e, c, ans), s.net, s.net.fds.netlinks[c.fd];
            var q := n.nls[i].replies;
            if q == [] then t == Told(s, e, p, c, Value(-1), n)
            else Encodable(q[0]) && |junk| == 16 ==>
                   if |ReplyBytes(q[0], junk)| > c.iovLen then t.halted
                   else t == Told(s, e, p, c, Message(|ReplyBytes(q[0], junk)|, q[0]),
                                  n.(nls := n.nls[i := n.nls[i].(replies := q[1..])]))
  {
    var n, i := s.net, s.net.fds.netlinks[c.fd];
    var q := n.nls[i].replies;
    if q == [] {
      TellsWith(s, e, p, c, ans, Value(-1), Failure, n);
    } else if Encodable(q[0]) && |junk| == 16 {
      ReplyLength(q[0], junk);
      if NL.ReplyLen(q[0]) > c.iovLen {
        StopsWith(s, e, p, c, ans);
      } else {
        TellsWith(s, e, p, c, ans, Message(NL.ReplyLen(q[0]), q[0]), Success,
                  n.(nls := n.nls[i := n.nls[i].(replies := q[1..])]));
      }
    }
  }
}
