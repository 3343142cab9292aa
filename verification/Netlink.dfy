/** The netlink socket: requests walked in place, replies queued, routes handed to the shared router. */
module Netlink {
  import opened Base
  import opened Routing
  import opened RoutingHistory
  import opened NetlinkWire

  lemma SkipTwice(b: Bytes, i: nat, j: nat)
    ensures Skip(Skip(b, i), j) == Skip(b, i + j)
  {
  }

  /** nlmsg_len of a queued reply: header, fixed part, and the aligned attribute. */
  function ReplyLen(r: Reply): nat {
    match r
    case NewLink(_, name) => 32 + RoundUp4(4 + |name| + 1)
    case NewAddr(_, _, _) => 40
    case Done => 16
    case Ack(_) => 36
  }

  /** One round of the attribute loop. */
  lemma AttrAdvance(buf: Bytes, cur: nat, rlen: nat, isNew: bool, acc: RouteAttrs, alen: nat, acc': RouteAttrs,
                    next: nat, left: nat)
    requires rlen < SIZE_T && AttrLength(Skip(buf, cur), rlen) == Fine(Some(alen))
    requires TakeAttr(U16(Skip(buf, cur)[2..]), Skip(buf, cur)[RTA_HDRLEN..], isNew, acc) == Fine(acc')
    requires next == cur + RoundUp4(alen) && left == SizeMinus(rlen, RoundUp4(alen))
    ensures left < SIZE_T && |Skip(buf, next)| < |Skip(buf, cur)| &&
            WalkAttrs(Skip(buf, cur), rlen, isNew, acc) == WalkAttrs(Skip(buf, next), left, isNew, acc')
  {
    SkipTwice(buf, cur, RoundUp4(alen));
  }

  /** Received: the reply was copied out. QueueEmpty: -1 and a failure status. Aborted: the buffer is too small. */
  datatype Received = Received(reply: Reply, len: nat) | QueueEmpty | Aborted

  /** What requests change: the queue, the routes, and how often the receive callback has been run. */
  datatype Account = Account(queue: seq<Reply>, table: seq<RtEntry>, calls: nat)

  /** The account after these effects, on a socket that has a callback or has none. */
  function After(a: Account, es: seq<Effect>, called: bool): Account {
    Account(a.queue + RepliesOf(es), ApplyAll(a.table, OpsOf(es)), a.calls + if called then Dumps(es) else 0)
  }

  /** The account after one effect. */
  function Effected(a: Account, e: Effect, called: bool): Account {
    Account(a.queue + ReplyOf(e), ApplyAll(a.table, OpOf(e)), a.calls + if called && e.Dump? then 1 else 0)
  }

  /** Effect by effect is the same as all together. */
  lemma AfterBoth(a: Account, done: seq<Effect>, es: seq<Effect>, called: bool)
    ensures After(After(a, done, called), es, called) == After(a, done + es, called)
  {
    QueueBoth(a.queue, done, es);
    TableBoth(a.table, done, es);
    DumpsConcat(done, es);
  }

  lemma QueueBoth(queue: seq<Reply>, done: seq<Effect>, es: seq<Effect>)
    ensures queue + RepliesOf(done) + RepliesOf(es) == queue + RepliesOf(done + es)
  {
    EffectsConcat(done, es);
  }

  lemma TableBoth(table: seq<RtEntry>, done: seq<Effect>, es: seq<Effect>)
    ensures ApplyAll(ApplyAll(table, OpsOf(done)), OpsOf(es)) == ApplyAll(table, OpsOf(done + es))
  {
    EffectsConcat(done, es);
    ApplyAllConcat(table, OpsOf(done), OpsOf(es));
  }

  lemma AfterNone(a: Account, called: bool)
    ensures After(a, [], called) == a
  {
    assert a.queue + [] == a.queue;
  }

  /** One effect. */
  lemma AfterOne(a: Account, e: Effect, called: bool)
    ensures After(a, [e], called) == Effected(a, e, called)
  {
    assert [e][1..] == [];
    assert OpsOf([e][1..]) == [] && RepliesOf([e][1..]) == [] && Dumps([e][1..]) == 0;
    assert OpOf(e) + [] == OpOf(e) && ReplyOf(e) + [] == ReplyOf(e);
  }

  lemma AfterStep(a: Account, done: seq<Effect>, e: Effect, called: bool)
    ensures After(a, done + [e], called) == Effected(After(a, done, called), e, called)
  {
    AfterOne(After(a, done, called), e, called);
    AfterBoth(a, done, [e], called);
  }

  /** `rest` is left of the walk of `buf` after the effects `done`. */
  ghost predicate Walked(buf: Bytes, done: seq<Effect>, rest: Bytes, len: int, devs: seq<Device>) {
    WalkMsgs(buf, devs) == Joined(done, WalkMsgs(rest, devs)) && Leftover(buf, |buf|) == Leftover(rest, len)
  }

  /** The three counters have counted the devices before `i`. */
  ghost predicate Counted(devs: seq<Device>, i: nat, loi: nat, wlani: nat, ethi: nat)
    requires i <= |devs|
  {
    loi == CountKind(devs[..i], Loopback) && wlani == CountKind(devs[..i], Wifi) &&
    ethi == CountKind(devs[..i], PointToPoint)
  }

  lemma CountedNext(devs: seq<Device>, i: nat, loi: nat, wlani: nat, ethi: nat)
    requires i < |devs| && Counted(devs, i, loi, wlani, ethi)
    ensures var k := devs[i].kind;
            Counted(devs, i + 1, loi + (if k == Loopback then 1 else 0), wlani + (if k == Wifi then 1 else 0),
                    ethi + if k == PointToPoint then 1 else 0)
    ensures devs[i].kind != OtherKind ==>
              IfName(devs, i) == Prefix(devs[i].kind) +
                                 Decimal(if devs[i].kind == Loopback then loi else if devs[i].kind == Wifi then wlani
                                         else ethi)
  {
    assert devs[..i + 1][..i] == devs[..i];
  }

  /** The replies to the devices before `i`, all of which have names. */
  ghost predicate LinksTo(devs: seq<Device>, parts: seq<Reply>, i: nat) {
    i <= |devs| && |parts| == i &&
    forall j :: 0 <= j < i ==> devs[j].kind != OtherKind && parts[j] == NewLink(j, IfName(devs, j))
  }

  lemma LinksNext(devs: seq<Device>, parts: seq<Reply>, i: nat)
    requires LinksTo(devs, parts, i) && i < |devs|
    ensures devs[i].kind != OtherKind ==> LinksTo(devs, parts + [NewLink(i, IfName(devs, i))], i + 1)
  {
  }

  lemma LinksDone(devs: seq<Device>, parts: seq<Reply>)
    requires LinksTo(devs, parts, |devs|)
    ensures AllNamed(devs) && parts == LinkReplies(devs)
  {
  }

  lemma PartQueued(queue: seq<Reply>, parts: seq<Reply>, reply: Reply)
    ensures queue + parts + [reply] == queue + (parts + [reply])
    ensures queue + parts + [reply] + [Done] == queue + Finished(parts + [reply])
  {
  }

  class NetlinkSocket {
    /** Its place among the netlink sockets that the engine has made. */
    ghost const index: nat
    /** The thread that made the socket and that it answers. */
    const pid: nat
    const devices: seq<Device>
    const router: HgRoutingProtocol

    var replyQueue: seq<Reply>
    var recvCallback: NlCb
    /** How often the receive callback has been run. */
    var notifications: nat

    constructor (ghost index: nat, pid: nat, devices: seq<Device>, router: HgRoutingProtocol)
      ensures this.index == index && this.pid == pid && this.devices == devices && this.router == router
      ensures replyQueue == [] && recvCallback == NoNl && notifications == 0
    {
      this.index, this.pid, this.devices, this.router := index, pid, devices, router;
      replyQueue, recvCallback, notifications := [], NoNl, 0;
    }

    function Now(): Account
      reads this, router
    {
      Account(replyQueue, router.entries, notifications)
    }

    predicate HasData()
      reads this
    {
      replyQueue != []
    }

    method SetRecvCallback(cb: NlCb)
      modifies this`recvCallback
      ensures recvCallback == cb
    {
      recvCallback := cb;
    }

    method UnsetRecvCallback()
      modifies this`recvCallback
      ensures recvCallback == NoNl
    {
      recvCallback := NoNl;
    }

    /** The name of the next device of a kind, and the counters after it. */
    method NextName(kind: DeviceKind, loi: nat, wlani: nat, ethi: nat)
      returns (ifname: string, lo: nat, wlan: nat, eth: nat, named: bool)
      ensures named <==> kind != OtherKind
      ensures lo == loi + (if kind == Loopback then 1 else 0) && wlan == wlani + (if kind == Wifi then 1 else 0) &&
              eth == ethi + if kind == PointToPoint then 1 else 0
      ensures named ==>
                ifname == Prefix(kind) + Decimal(if kind == Loopback then loi else if kind == Wifi then wlani else ethi)
    {
      ifname, lo, wlan, eth, named := "", loi, wlani, ethi, true;
      if kind == Loopback {
        ifname, lo := "lo" + Decimal(loi), loi + 1;
      } else if kind == Wifi {
        ifname, wlan := "wlan" + Decimal(wlani), wlani + 1;
      } else if kind == PointToPoint {
        ifname, eth := "eth" + Decimal(ethi), ethi + 1;
      } else {
        named := false;
      }
    }

    /** A part of a dump is queued, and the end mark behind the last one. */
    method QueuePart(reply: Reply, last: bool)
      modifies this`replyQueue
      ensures replyQueue == old(replyQueue) + [reply] + if last then [Done] else []
    {
      replyQueue := replyQueue + [reply];
      if last {
        replyQueue := replyQueue + [Done];
      }
    }

    /** RTM_GETLINK: one reply per device, each kind numbered by its own counter. */
    method DumpLinks() returns (alive: bool)
      modifies this`replyQueue, this`notifications
      ensures alive <==> AllNamed(devices)
      ensures alive ==> replyQueue == old(replyQueue) + Finished(LinkReplies(devices))
      ensures alive ==> notifications == old(notifications) + if recvCallback.SelectNl? then 1 else 0
    {
      var nDevices := |devices|;
      var wlani, ethi, loi := 0, 0, 0;
      ghost var parts: seq<Reply> := [];
      for i := 0 to nDevices
        invariant notifications == old(notifications)
        invariant Counted(devices, i, loi, wlani, ethi) && LinksTo(devices, parts, i)
        invariant replyQueue == old(replyQueue) + if i == nDevices then Finished(parts) else parts
      {
        CountedNext(devices, i, loi, wlani, ethi);
        LinksNext(devices, parts, i);
        var ifname, named;
        ifname, loi, wlani, ethi, named := NextName(devices[i].kind, loi, wlani, ethi);
        if !named {
          return false;
        }
        PartQueued(old(replyQueue), parts, NewLink(i, ifname));
        QueuePart(NewLink(i, ifname), i + 1 == nDevices);
        parts := parts + [NewLink(i, ifname)];
      }
      LinksDone(devices, parts);
      if recvCallback.SelectNl? {
        notifications := notifications + 1;
      }
      alive := true;
    }

    /** RTM_GETADDR: one reply per device with its interface's first address. */
    method DumpAddrs() returns (alive: bool)
      modifies this`replyQueue, this`notifications
      ensures alive <==> AllAddressed(devices)
      ensures alive ==> replyQueue == old(replyQueue) + Finished(AddrReplies(devices))
      ensures alive ==> |replyQueue| == |old(replyQueue)| + if devices == [] then 0 else |devices| + 1
      ensures alive && devices != [] ==> replyQueue[|replyQueue| - 1] == Done
      ensures alive ==> forall i :: 0 <= i < |devices| ==>
                          replyQueue[|old(replyQueue)| + i] ==
                          NewAddr(i, devices[i].addr.value.1, devices[i].addr.value.0)
      ensures alive ==> notifications == old(notifications) + if recvCallback.SelectNl? then 1 else 0
    {
      var nDevices := |devices|;
      ghost var parts: seq<Reply> := [];
      for i := 0 to nDevices
        invariant forall j :: 0 <= j < i ==> devices[j].addr.Some?
        invariant |parts| == i && notifications == old(notifications)
        invariant forall j :: 0 <= j < i ==>
                    parts[j] == NewAddr(j, devices[j].addr.value.1, devices[j].addr.value.0)
        invariant replyQueue == old(replyQueue) + if i == nDevices then Finished(parts) else parts
      {
        if devices[i].addr.None? {
          return false;
        }
        var reply := NewAddr(i, devices[i].addr.value.1, devices[i].addr.value.0);
        PartQueued(old(replyQueue), parts, reply);
        QueuePart(reply, i + 1 == nDevices);
        parts := parts + [reply];
      }
      assert parts == AddrReplies(devices);
      if recvCallback.SelectNl? {
        notifications := notifications + 1;
      }
      alive := true;
    }

    /** The attribute loop, from offset `start` with `count` bytes taken to remain. */
    method WalkAttributes(buf: Bytes, start: nat, count: nat, isNew: bool)
      returns (result: Outcome<RouteAttrs>)
      requires count < SIZE_T
      ensures result == WalkAttrs(Skip(buf, start), count, isNew, RouteAttrs(None, None))
    {
      var curAttr: nat, rbuflen: nat, acc := start, count, RouteAttrs(None, None);
      ghost var goal := WalkAttrs(Skip(buf, start), count, isNew, RouteAttrs(None, None));
      while true
        invariant rbuflen < SIZE_T && WalkAttrs(Skip(buf, curAttr), rbuflen, isNew, acc) == goal
        decreases |Skip(buf, curAttr)|
      {
        var rest := Skip(buf, curAttr);
        var ok := AttrLength(rest, rbuflen);
        if ok.Crashed? {
          return Crashed(ok.why);
        }
        if ok.value.None? {
          return Fine(acc);
        }
        var taken := TakeAttr(U16(rest[2..]), rest[RTA_HDRLEN..], isNew, acc);
        if taken.Crashed? {
          return Crashed(taken.why);
        }
        var step := RoundUp4(ok.value.value);
        var next, left := curAttr + step, SizeMinus(rbuflen, step);
        AttrAdvance(buf, curAttr, rbuflen, isNew, acc, ok.value.value, taken.value, next, left);
        curAttr, rbuflen, acc := next, left, taken.value;
      }
    }

    /** The dump a message of this type asks for. */
    method DumpAll(kind: nat) returns (alive: bool)
      modifies this`replyQueue, this`notifications
      ensures alive <==> if kind == RTM_GETLINK then AllNamed(devices) else AllAddressed(devices)
      ensures alive ==>
                replyQueue == old(replyQueue) +
                              Finished(if kind == RTM_GETLINK then LinkReplies(devices) else AddrReplies(devices))
      ensures alive ==> notifications == old(notifications) + if recvCallback.SelectNl? then 1 else 0
    {
      if kind == RTM_GETLINK {
        alive := DumpLinks();
      } else {
        alive := DumpAddrs();
      }
    }

    /** One message at offset `hdr`. Not alive: the simulator has stopped. */
    method ProcessNlmsghdr(buf: Bytes, hdr: nat) returns (alive: bool)
      requires hdr + NLMSG_HDRLEN <= |buf|
      modifies this`replyQueue, this`notifications, router
      ensures alive <==> Process(Skip(buf, hdr), devices).Fine?
      ensures alive ==> Now() == Effected(old(Now()), Process(Skip(buf, hdr), devices).value, recvCallback.SelectNl?)
    {
      var msg := buf[hdr..];
      var kind, flags := U16(msg[4..]), U16(msg[6..]);
      if kind == RTM_GETLINK || kind == RTM_GETADDR {
        if !IsRoot(flags) {
          return false;
        }
        alive := DumpAll(kind);
      } else if kind == RTM_NEWROUTE || kind == RTM_DELROUTE {
        var mlen := U32(msg);
        if mlen <= NLMSG_HDRLEN || |msg| < RTMSG_END {
          return false;
        }
        if AsksForNotice(U32(msg[24..])) {
          return false;
        }
        var dstLen := msg[17];
        var attrs := WalkAttributes(buf, hdr + RTMSG_END, SizeMinus(mlen, RTMSG_END), kind == RTM_NEWROUTE);
        assert Skip(buf, hdr + RTMSG_END) == msg[RTMSG_END..];
        if attrs.Crashed? || attrs.value.dst.None? || attrs.value.gw.None? {
          return false;
        }
        var dst, gw := attrs.value.dst.value, attrs.value.gw.value;
        ghost var op := if kind == RTM_NEWROUTE then AddOp(dst, dstLen, gw) else DelOp(dst, dstLen, gw);
        assert OpOf(RouteChange(op)) == [op] && ApplyAll(router.entries, [op]) == Apply(router.entries, op);
        if kind == RTM_NEWROUTE {
          router.AddRoute(dst, dstLen, gw);
        } else {
          router.DelRoute(dst, dstLen, gw);
        }
        replyQueue := replyQueue + [Ack(0)];
        alive := true;
      } else {
        return false;
      }
    }

    /** The walk of `buf` stands at offset `hdr` and has had the effects `done`. */
    ghost predicate HasWalked(was: Account, buf: Bytes, done: seq<Effect>, hdr: nat, len: int)
      reads this, router
    {
      Now() == After(was, done, recvCallback.SelectNl?) && Walked(buf, done, Skip(buf, hdr), len, devices)
    }

    /** NLMSG_ALIGN of the length of the message at `hdr`, which is what the loop advances by. */
    method TotalLength(buf: Bytes, hdr: nat) returns (totlen: nat)
      requires MsgOk(Skip(buf, hdr))
      ensures totlen == RoundUp4(U32(Skip(buf, hdr))) && totlen >= NLMSG_HDRLEN && hdr + NLMSG_HDRLEN <= |buf|
    {
      assert Skip(buf, hdr) == buf[hdr..];
      totlen := RoundUp4(U32(buf[hdr..]));
    }

    /** One round of the message loop: processes the message at `hdr`; the next one is at `next`. */
    method NextMessage(buf: Bytes, hdr: nat, ghost len: int, ghost next: nat, ghost left: int, ghost was: Account,
                       ghost done: seq<Effect>)
      returns (alive: bool, ghost more: seq<Effect>)
      requires MsgOk(Skip(buf, hdr)) && hdr + NLMSG_HDRLEN <= |buf| && HasWalked(was, buf, done, hdr, len)
      requires Follows(Skip(buf, hdr), hdr, len, next, left)
      modifies this`replyQueue, this`notifications, router
      ensures !alive ==> WalkMsgs(buf, devices).Crashed?
      ensures alive ==> HasWalked(was, buf, more, next, left)
    {
      ghost var before := Now();
      more := done;
      alive := ProcessNlmsghdr(buf, hdr);
      RoundDone(was, before, Now(), buf, done, hdr, len, next, left, recvCallback.SelectNl?, devices);
      if alive {
        more := done + [Process(Skip(buf, hdr), devices).value];
      }
    }

    /** The message loop over one buffer; `left` is the signed count it ends with. */
    method WalkMessages(buf: Bytes) returns (alive: bool, left: int)
      modifies this`replyQueue, this`notifications, router
      ensures alive <==> WalkMsgs(buf, devices).Fine?
      ensures alive ==> left == Leftover(buf, |buf|) &&
                        Now() == After(old(Now()), WalkMsgs(buf, devices).value, recvCallback.SelectNl?)
    {
      var hdr: nat, len: int := 0, |buf|;
      ghost var was: Account, done: seq<Effect> := Now(), [];
      WalkStart(buf, devices);
      AfterNone(was, recvCallback.SelectNl?);
      while NlmsgOk(buf, hdr, len)
        invariant len == |buf| - hdr && HasWalked(was, buf, done, hdr, len)
        decreases len
      {
        var totlen := TotalLength(buf, hdr);
        var next, rest := hdr + totlen, len - totlen;
        alive, done := NextMessage(buf, hdr, len, next, rest, was, done);
        if !alive {
          return false, 0;
        }
        hdr, len := next, rest;
      }
      WalkEnd(buf, done, hdr, len, devices);
      alive, left := true, len;
    }

    /** sendmsg: every buffer of the vector; the value returned to the tracee is the byte count. */
    method HandleSendMsg(iov: seq<Bytes>) returns (alive: bool, total: nat)
      modifies this`replyQueue, this`notifications, router
      ensures alive <==> WalkBuffers(iov, devices).Fine?
      ensures alive ==> Now() == After(old(Now()), WalkBuffers(iov, devices).value, recvCallback.SelectNl?)
      ensures alive ==> total == TotalLen(iov)
      ensures Reacts(Send(iov), old(replyQueue), devices, alive, replyQueue, [])
    {
      total := 0;
      ghost var done: seq<Effect> := [];
      assert iov[0..] == iov;
      JoinedEmpty(WalkBuffers(iov, devices));
      AfterNone(Now(), recvCallback.SelectNl?);
      for i := 0 to |iov|
        invariant WalkBuffers(iov, devices) == Joined(done, WalkBuffers(iov[i..], devices))
        invariant Now() == After(old(Now()), done, recvCallback.SelectNl?)
        invariant TotalLen(iov) == total + TotalLen(iov[i..])
      {
        total := total + |iov[i]|;
        assert iov[i..][1..] == iov[i + 1..];
        var left;
        alive, left := WalkMessages(iov[i]);
        if !alive {
          return false, 0;
        }
        ghost var es := WalkMsgs(iov[i], devices).value;
        AfterBoth(old(Now()), done, es, recvCallback.SelectNl?);
        JoinedTwice(done, es, WalkBuffers(iov[i + 1..], devices));
        done := done + es;
      }
      assert iov[|iov|..] == [] && done + [] == done;
      alive := true;
    }

    /** sendto: one buffer; the value returned is the low word of what the walk left over. */
    method HandleSendTo(buf: Bytes) returns (alive: bool, returned: nat)
      modifies this`replyQueue, this`notifications, router
      ensures alive <==> WalkMsgs(buf, devices).Fine?
      ensures alive ==> Now() == After(old(Now()), WalkMsgs(buf, devices).value, recvCallback.SelectNl?)
      ensures alive ==> returned == Leftover(buf, |buf|) % 0x1_0000_0000
    {
      var left;
      alive, left := WalkMessages(buf);
      returned := left % 0x1_0000_0000;
    }

    method HandleRecvMsg(iovLen: nat) returns (received: Received)
      modifies this`replyQueue
      ensures old(replyQueue) == [] ==> received == QueueEmpty && replyQueue == []
      ensures old(replyQueue) != [] && ReplyLen(old(replyQueue)[0]) > iovLen ==>
                received == Aborted && replyQueue == old(replyQueue)
      ensures old(replyQueue) != [] && ReplyLen(old(replyQueue)[0]) <= iovLen ==>
                received == Received(old(replyQueue)[0], ReplyLen(old(replyQueue)[0])) &&
                old(replyQueue) == [received.reply] + replyQueue
      ensures Reacts(Receive(iovLen), old(replyQueue), devices, received != Aborted, replyQueue,
                     if received.Received? then [received.reply] else [])
    {
      if replyQueue == [] {
        return QueueEmpty;
      }
      var reply := replyQueue[0];
      if iovLen < ReplyLen(reply) {
        return Aborted;
      }
      replyQueue := replyQueue[1..];
      received := Received(reply, ReplyLen(reply));
    }
  }

  function TotalLen(iov: seq<Bytes>): nat {
    if iov == [] then 0 else |iov[0]| + TotalLen(iov[1..])
  }

  /** The effects already had, put in front of those still to come. */
  function Joined(done: seq<Effect>, tail: Outcome<seq<Effect>>): Outcome<seq<Effect>> {
    match tail
    case Crashed(why) => Crashed(why)
    case Fine(es) => Fine(done + es)
  }

  lemma JoinedEmpty(tail: Outcome<seq<Effect>>)
    ensures Joined([], tail) == tail
  {
    if tail.Fine? {
      assert [] + tail.value == tail.value;
    }
  }

  /** nlmsg_ok at offset `hdr` with `len` bytes taken to remain. */
  predicate NlmsgOk(buf: Bytes, hdr: nat, len: int)
    requires len == |buf| - hdr
    ensures NlmsgOk(buf, hdr, len) <==> MsgOk(Skip(buf, hdr))
  {
    len >= NLMSG_HDRLEN && NLMSG_HDRLEN <= U32(buf[hdr..]) <= len
  }

  lemma WalkStart(buf: Bytes, devs: seq<Device>)
    ensures Walked(buf, [], Skip(buf, 0), |buf|, devs)
  {
    assert Skip(buf, 0) == buf;
    JoinedEmpty(WalkMsgs(buf, devs));
  }

  lemma WalkEnd(buf: Bytes, done: seq<Effect>, hdr: nat, len: int, devs: seq<Device>)
    requires Walked(buf, done, Skip(buf, hdr), len, devs) && !MsgOk(Skip(buf, hdr))
    ensures WalkMsgs(buf, devs) == Fine(done) && len == Leftover(buf, |buf|)
  {
    assert done + [] == done;
  }

  /** One round of the message walk. */
  lemma WalkStep(rest: Bytes, len: int, after: Bytes, left: int, done: seq<Effect>, devs: seq<Device>)
    requires MsgOk(rest) && after == Skip(rest, RoundUp4(U32(rest))) && left == len - RoundUp4(U32(rest))
    ensures Leftover(rest, len) == Leftover(after, left)
    ensures var e := Process(rest, devs);
            (e.Crashed? ==> WalkMsgs(rest, devs) == Crashed(e.why)) &&
            (e.Fine? ==> Joined(done, WalkMsgs(rest, devs)) == Joined(done + [e.value], WalkMsgs(after, devs)))
  {
    var e := Process(rest, devs);
    if e.Fine? {
      Snoc(done, e.value, WalkMsgs(after, devs));
    }
  }

  /** The walk after one more message. */
  lemma WalkOn(buf: Bytes, done: seq<Effect>, rest: Bytes, len: int, after: Bytes, left: int, devs: seq<Device>)
    requires Walked(buf, done, rest, len, devs) && MsgOk(rest)
    requires after == Skip(rest, RoundUp4(U32(rest))) && left == len - RoundUp4(U32(rest))
    ensures var e := Process(rest, devs);
            (e.Crashed? ==> WalkMsgs(buf, devs).Crashed?) &&
            (e.Fine? ==> Walked(buf, done + [e.value], after, left, devs))
  {
    WalkStep(rest, len, after, left, done, devs);
  }

  lemma FollowsAt(buf: Bytes, hdr: nat, len: int, next: nat, left: int)
    requires MsgOk(Skip(buf, hdr)) && Follows(Skip(buf, hdr), hdr, len, next, left)
    ensures Skip(buf, next) == Skip(Skip(buf, hdr), RoundUp4(U32(Skip(buf, hdr))))
  {
    SkipTwice(buf, hdr, RoundUp4(U32(Skip(buf, hdr))));
  }

  /** The message after `rest`, by its offset and by the bytes taken to remain. */
  ghost predicate Follows(rest: Bytes, hdr: nat, len: int, next: nat, left: int)
    requires MsgOk(rest)
  {
    next == hdr + RoundUp4(U32(rest)) && left == len - RoundUp4(U32(rest))
  }

  /** What a round of the message loop leaves to the next. */
  lemma RoundDone(was: Account, before: Account, now: Account, buf: Bytes, done: seq<Effect>, hdr: nat, len: int,
                  next: nat, left: int, called: bool, devs: seq<Device>)
    requires before == After(was, done, called) && Walked(buf, done, Skip(buf, hdr), len, devs)
    requires MsgOk(Skip(buf, hdr)) && Follows(Skip(buf, hdr), hdr, len, next, left)
    ensures var e := Process(Skip(buf, hdr), devs);
            (e.Crashed? ==> WalkMsgs(buf, devs).Crashed?) &&
            (e.Fine? ==> Walked(buf, done + [e.value], Skip(buf, next), left, devs)) &&
            (e.Fine? && now == Effected(before, e.value, called) ==> now == After(was, done + [e.value], called))
  {
    FollowsAt(buf, hdr, len, next, left);
    WalkOn(buf, done, Skip(buf, hdr), len, Skip(buf, next), left, devs);
    var e := Process(Skip(buf, hdr), devs);
    if e.Fine? {
      AfterStep(was, done, e.value, called);
    }
  }

  lemma Snoc(done: seq<Effect>, e: Effect, tail: Outcome<seq<Effect>>)
    ensures Joined(done, Prepend(e, tail)) == Joined(done + [e], tail)
  {
    if tail.Fine? {
      assert done + ([e] + tail.value) == (done + [e]) + tail.value;
    }
  }

  lemma JoinedTwice(done: seq<Effect>, es: seq<Effect>, tail: Outcome<seq<Effect>>)
    ensures Joined(done, Joined(es, tail)) == Joined(done + es, tail)
  {
    if tail.Fine? {
      assert done + (es + tail.value) == (done + es) + tail.value;
    }
  }

  // ---- The reply stream over a whole conversation ------------------------------------------

  datatype Request = Send(iov: seq<Bytes>) | Receive(iovLen: nat)

  /** The queue after a request and what it has delivered. */
  function React(queue: seq<Reply>, r: Request, devs: seq<Device>): Outcome<(seq<Reply>, seq<Reply>)> {
    match r
    case Send(iov) =>
      (match WalkBuffers(iov, devs)
       case Crashed(why) => Crashed(why)
       case Fine(es) => Fine((queue + RepliesOf(es), [])))
    case Receive(n) =>
      if queue == [] then Fine((queue, []))
      else if ReplyLen(queue[0]) > n then Crashed(AssertionFails)
      else Fine((queue[1..], [queue[0]]))
  }

  /** What a method that serves request `r` has come to. */
  ghost predicate Reacts(r: Request, queue: seq<Reply>, devs: seq<Device>, alive: bool, queue': seq<Reply>,
                         out: seq<Reply>) {
    (alive <==> React(queue, r, devs).Fine?) && (alive ==> React(queue, r, devs).value == (queue', out))
  }

  /** What one socket has delivered and what it still holds. */
  datatype Stream = Stream(delivered: seq<Reply>, queue: seq<Reply>)

  /** A conversation that did not stop the simulator: the stream after it. */
  function Converse(s: Stream, rs: seq<Request>, devs: seq<Device>): Outcome<Stream>
    decreases rs
  {
    if rs == [] then Fine(s)
    else
      match React(s.queue, rs[0], devs)
      case Crashed(why) => Crashed(why)
      case Fine((queue, out)) => Converse(Stream(s.delivered + out, queue), rs[1..], devs)
  }

  /** Every reply the requests call for, in request order. */
  function Owed(rs: seq<Request>, devs: seq<Device>): seq<Reply>
    decreases rs
  {
    if rs == [] then []
    else (if rs[0].Send? && WalkBuffers(rs[0].iov, devs).Fine?
          then RepliesOf(WalkBuffers(rs[0].iov, devs).value) else []) + Owed(rs[1..], devs)
  }

  /** Delivered replies followed by the queue are always the replies owed, in order: none lost, none repeated. */
  lemma {:induction false} StreamConserved(s: Stream, rs: seq<Request>, devs: seq<Device>)
    requires Converse(s, rs, devs).Fine?
    ensures var t := Converse(s, rs, devs).value;
            t.delivered + t.queue == s.delivered + s.queue + Owed(rs, devs)
    decreases rs
  {
    if rs != [] {
      var (queue, out) := React(s.queue, rs[0], devs).value;
      StreamConserved(Stream(s.delivered + out, queue), rs[1..], devs);
      ReactConserves(s, rs[0], devs);
      var owed := if rs[0].Send? then RepliesOf(WalkBuffers(rs[0].iov, devs).value) else [];
      Regroup(s.delivered + s.queue, owed, Owed(rs[1..], devs));
    }
  }

  lemma Regroup<T>(a: seq<T>, b: seq<T>, c: seq<T>)
    ensures a + b + c == a + (b + c)
  {
  }

  lemma ReactConserves(s: Stream, r: Request, devs: seq<Device>)
    requires React(s.queue, r, devs).Fine?
    ensures var (queue, out) := React(s.queue, r, devs).value;
            s.delivered + out + queue ==
            s.delivered + s.queue + if r.Send? then RepliesOf(WalkBuffers(r.iov, devs).value) else []
  {
    if r.Send? {
      Regroup(s.delivered, s.queue, RepliesOf(WalkBuffers(r.iov, devs).value));
    } else {
      Regroup(s.delivered, s.queue, []);
    }
  }
}
