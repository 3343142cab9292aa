/**
 * An encoder for well-formed requests and the proof that the byte walks recover exactly what
 * was encoded; and where the attribute walk stays inside its message.
 */
module NetlinkCodec {
  import opened Base
  import opened Routing
  import opened RoutingHistory
  import opened NetlinkWire

  function LE16(n: nat): (b: Bytes)
    requires n < 0x1_0000
    ensures |b| == 2 && U16(b) == n
  {
    [n % 0x100, n / 0x100]
  }

  function LE32(n: nat): (b: Bytes)
    requires n < 0x1_0000_0000
    ensures |b| == 4 && U32(b) == n
  {
    LE16(n % 0x1_0000) + LE16(n / 0x1_0000)
  }

  function Zeros(n: nat): Bytes {
    seq(n, i => 0)
  }

  function Padded(b: Bytes): (r: Bytes)
    ensures |r| == RoundUp4(|b|) && b <= r
  {
    b + Zeros(RoundUp4(|b|) - |b|)
  }

  // ---- Attributes --------------------------------------------------------------------

  datatype Attr = Attr(kind: nat, payload: Bytes)

  /** Handled by the walk for this kind of message, with a payload that can be read. */
  predicate AttrOk(a: Attr, isNew: bool) {
    RTA_HDRLEN + |a.payload| < 0x1_0000 &&
    (a.kind == RTA_SRC ||
     ((a.kind == RTA_DST || a.kind == RTA_GATEWAY || a.kind == RTA_PRIORITY || a.kind == RTA_OIF ||
       (isNew && a.kind == RTA_IIF)) && |a.payload| >= 4))
  }

  predicate AttrsOk(attrs: seq<Attr>, isNew: bool) {
    forall i :: 0 <= i < |attrs| ==> AttrOk(attrs[i], isNew)
  }

  function EncAttr(a: Attr): (b: Bytes)
    requires a.kind < 0x1_0000 && RTA_HDRLEN + |a.payload| < 0x1_0000
    ensures |b| == RoundUp4(RTA_HDRLEN + |a.payload|) && |b| >= RTA_HDRLEN
  {
    Padded(LE16(RTA_HDRLEN + |a.payload|) + LE16(a.kind) + a.payload)
  }

  function EncAttrs(attrs: seq<Attr>, isNew: bool): (b: Bytes)
    requires AttrsOk(attrs, isNew)
    ensures |b| % 4 == 0
  {
    if attrs == [] then [] else EncAttr(attrs[0]) + EncAttrs(attrs[1..], isNew)
  }

  /** The address carried by the last attribute of a kind. */
  function LastOf(attrs: seq<Attr>, kind: nat): Option<Ipv4> {
    if attrs == [] then None
    else
      var later := LastOf(attrs[1..], kind);
      if later.Some? then later
      else if attrs[0].kind == kind && |attrs[0].payload| >= 4 then Some(AddressOf(attrs[0].payload)) else None
  }

  function Or<T>(a: Option<T>, b: Option<T>): Option<T> {
    if a.Some? then a else b
  }

  lemma AddressPrefix(a: Bytes, b: Bytes)
    requires |a| >= 4
    ensures AddressOf(a + b) == AddressOf(a)
  {
  }

  /** The reader sees the header and payload of an encoded attribute, whatever follows. */
  lemma AttrHead(a: Attr, isNew: bool, tail: Bytes, rlen: nat, acc: RouteAttrs)
    requires AttrOk(a, isNew)
    requires RoundUp4(RTA_HDRLEN + |a.payload|) <= rlen
    ensures var rest := EncAttr(a) + tail;
            AttrLength(rest, rlen) == Fine(Some(RTA_HDRLEN + |a.payload|)) &&
            TakeAttr(U16(rest[2..]), rest[RTA_HDRLEN..], isNew, acc) ==
            Fine(RouteAttrs(Or(LastOf([a], RTA_DST), acc.dst), Or(LastOf([a], RTA_GATEWAY), acc.gw))) &&
            Skip(rest, RoundUp4(RTA_HDRLEN + |a.payload|)) == tail
  {
    var n := RTA_HDRLEN + |a.payload|;
    var rest := EncAttr(a) + tail;
    var l, k, pad := LE16(n), LE16(a.kind), Zeros(RoundUp4(n) - n);
    assert EncAttr(a) == l + k + a.payload + pad;
    assert rest[0] == l[0] && rest[1] == l[1];
    assert rest[2..][0] == k[0] && rest[2..][1] == k[1];
    assert rest[RTA_HDRLEN..] == a.payload + (pad + tail);
    assert [a][1..] == [];
    if |a.payload| >= 4 {
      AddressPrefix(a.payload, pad + tail);
    }
  }

  function After(attrs: seq<Attr>, acc: RouteAttrs): RouteAttrs {
    RouteAttrs(Or(LastOf(attrs, RTA_DST), acc.dst), Or(LastOf(attrs, RTA_GATEWAY), acc.gw))
  }

  /** One round of the walk over an encoded attribute. */
  lemma AttrStep(a: Attr, isNew: bool, tail: Bytes, rlen: nat, acc: RouteAttrs)
    requires AttrOk(a, isNew)
    requires RoundUp4(RTA_HDRLEN + |a.payload|) <= rlen < SIZE_T
    ensures WalkAttrs(EncAttr(a) + tail, rlen, isNew, acc) ==
            WalkAttrs(tail, rlen - RoundUp4(RTA_HDRLEN + |a.payload|), isNew, After([a], acc))
  {
    AttrHead(a, isNew, tail, rlen, acc);
  }

  lemma AfterCons(attrs: seq<Attr>, acc: RouteAttrs)
    requires attrs != []
    ensures After(attrs[1..], After([attrs[0]], acc)) == After(attrs, acc)
  {
    var one := [attrs[0]];
    assert one[1..] == [];
    assert LastOf(one[1..], RTA_DST) == None && LastOf(one[1..], RTA_GATEWAY) == None;
    forall k | k == RTA_DST || k == RTA_GATEWAY
      ensures LastOf(attrs, k) == Or(LastOf(attrs[1..], k), LastOf(one, k))
    {
    }
  }

  lemma AttrWalkEnd(isNew: bool, tail: Bytes, acc: RouteAttrs)
    ensures WalkAttrs(tail, 0, isNew, acc) == Fine(acc)
  {
    assert AttrLength(tail, 0) == Fine(None);
  }

  lemma EncAttrsCons(attrs: seq<Attr>, isNew: bool)
    requires AttrsOk(attrs, isNew) && attrs != []
    ensures EncAttrs(attrs, isNew) == EncAttr(attrs[0]) + EncAttrs(attrs[1..], isNew)
    ensures |EncAttrs(attrs, isNew)| == RoundUp4(RTA_HDRLEN + |attrs[0].payload|) + |EncAttrs(attrs[1..], isNew)|
  {
  }

  /** The attribute walk visits exactly the encoded attributes and keeps the last destination and gateway. */
  lemma {:induction false} AttrWalkRoundTrip(attrs: seq<Attr>, isNew: bool, tail: Bytes, acc: RouteAttrs)
    requires AttrsOk(attrs, isNew) && |EncAttrs(attrs, isNew)| < SIZE_T
    ensures WalkAttrs(EncAttrs(attrs, isNew) + tail, |EncAttrs(attrs, isNew)|, isNew, acc) ==
            Fine(After(attrs, acc))
    decreases attrs
  {
    if attrs == [] {
      assert EncAttrs(attrs, isNew) + tail == tail;
      AttrWalkEnd(isNew, tail, acc);
    } else {
      var a, more := attrs[0], EncAttrs(attrs[1..], isNew);
      EncAttrsCons(attrs, isNew);
      Joined(EncAttr(a), more, tail);
      AttrStep(a, isNew, more + tail, |EncAttrs(attrs, isNew)|, acc);
      AttrWalkRoundTrip(attrs[1..], isNew, tail, After([a], acc));
      AfterCons(attrs, acc);
    }
  }

  // ---- Messages ----------------------------------------------------------------------

  datatype Msg =
    | RouteMsg(isNew: bool, flags: nat, seqNo: nat, pid: nat, rtm: Bytes, attrs: seq<Attr>)
    | DumpMsg(kind: nat, flags: nat, seqNo: nat, pid: nat, body: Bytes)

  /** Well-formed and supported on a node with these devices. */
  predicate MsgWellFormed(m: Msg, devs: seq<Device>) {
    m.flags < 0x1_0000 && m.seqNo < 0x1_0000_0000 && m.pid < 0x1_0000_0000 &&
    match m
    case RouteMsg(isNew, _, _, _, rtm, attrs) =>
      |rtm| == 12 && !AsksForNotice(U32(rtm[8..])) && AttrsOk(attrs, isNew) &&
      RTMSG_END + |EncAttrs(attrs, isNew)| < 0x8000_0000 &&
      LastOf(attrs, RTA_DST).Some? && LastOf(attrs, RTA_GATEWAY).Some?
    case DumpMsg(kind, flags, _, _, body) =>
      IsRoot(flags) && NLMSG_HDRLEN + |body| < 0x8000_0000 &&
      ((kind == RTM_GETLINK && AllNamed(devs)) || (kind == RTM_GETADDR && AllAddressed(devs)))
  }

  function MsgKind(m: Msg): nat {
    if m.DumpMsg? then m.kind else if m.isNew then RTM_NEWROUTE else RTM_DELROUTE
  }

  function Payload(m: Msg, devs: seq<Device>): (b: Bytes)
    requires MsgWellFormed(m, devs)
    ensures NLMSG_HDRLEN + |b| < 0x8000_0000
  {
    if m.DumpMsg? then m.body else m.rtm + EncAttrs(m.attrs, m.isNew)
  }

  function Header(m: Msg, len: nat): (b: Bytes)
    requires len < 0x8000_0000 && MsgKind(m) < 0x1_0000
    requires m.flags < 0x1_0000 && m.seqNo < 0x1_0000_0000 && m.pid < 0x1_0000_0000
    ensures |b| == NLMSG_HDRLEN
  {
    LE32(len) + LE16(MsgKind(m)) + LE16(m.flags) + LE32(m.seqNo) + LE32(m.pid)
  }

  function EncMsg(m: Msg, devs: seq<Device>): (b: Bytes)
    requires MsgWellFormed(m, devs)
    ensures |b| == RoundUp4(NLMSG_HDRLEN + |Payload(m, devs)|)
  {
    var p := Payload(m, devs);
    Padded(Header(m, NLMSG_HDRLEN + |p|) + p)
  }

  predicate AllWellFormed(ms: seq<Msg>, devs: seq<Device>) {
    forall i :: 0 <= i < |ms| ==> MsgWellFormed(ms[i], devs)
  }

  function EncMsgs(ms: seq<Msg>, devs: seq<Device>): Bytes
    requires AllWellFormed(ms, devs)
  {
    if ms == [] then [] else EncMsg(ms[0], devs) + EncMsgs(ms[1..], devs)
  }

  /** What a message asks for. */
  function Meaning(m: Msg, devs: seq<Device>): Effect
    requires MsgWellFormed(m, devs)
  {
    match m
    case RouteMsg(isNew, _, _, _, rtm, attrs) =>
      var dst, gw := LastOf(attrs, RTA_DST).value, LastOf(attrs, RTA_GATEWAY).value;
      RouteChange(if isNew then AddOp(dst, rtm[1], gw) else DelOp(dst, rtm[1], gw))
    case DumpMsg(kind, _, _, _, _) =>
      Dump(Finished(if kind == RTM_GETLINK then LinkReplies(devs) else AddrReplies(devs)))
  }

  function Meanings(ms: seq<Msg>, devs: seq<Device>): seq<Effect>
    requires AllWellFormed(ms, devs)
  {
    if ms == [] then [] else [Meaning(ms[0], devs)] + Meanings(ms[1..], devs)
  }

  /** The header fields of an encoded message read back, whatever follows. */
  lemma HeaderReadsBack(m: Msg, len: nat, tail: Bytes)
    requires len < 0x8000_0000 && MsgKind(m) < 0x1_0000
    requires m.flags < 0x1_0000 && m.seqNo < 0x1_0000_0000 && m.pid < 0x1_0000_0000
    ensures var b := Header(m, len) + tail;
            U32(b) == len && U16(b[4..]) == MsgKind(m) && U16(b[6..]) == m.flags
  {
    var b := Header(m, len) + tail;
    var l, k, f := LE32(len), LE16(MsgKind(m)), LE16(m.flags);
    assert b[0] == l[0] && b[1] == l[1] && b[2] == l[2] && b[3] == l[3];
    assert b[4..][0] == k[0] && b[4..][1] == k[1];
    assert b[6..][0] == f[0] && b[6..][1] == f[1];
  }

  lemma RtmReadsBack(h: Bytes, rtm: Bytes, enc: Bytes, tail: Bytes)
    requires |h| == NLMSG_HDRLEN && |rtm| == 12
    ensures var msg := h + rtm + enc + tail;
            |msg| >= RTMSG_END && msg[17] == rtm[1] && U32(msg[24..]) == U32(rtm[8..]) && msg[RTMSG_END..] == enc + tail
  {
    var msg := h + rtm + enc + tail;
    assert forall i :: 0 <= i < 12 ==> msg[NLMSG_HDRLEN + i] == rtm[i];
    assert forall i :: 0 <= i < 4 ==> msg[24..][i] == rtm[8..][i];
    assert msg[RTMSG_END..] == enc + tail;
  }

  /** A route message needs no padding. */
  lemma RouteEncoding(m: Msg, devs: seq<Device>)
    requires MsgWellFormed(m, devs) && m.RouteMsg?
    ensures var enc := EncAttrs(m.attrs, m.isNew);
            EncMsg(m, devs) == Header(m, RTMSG_END + |enc|) + m.rtm + enc
  {
    var enc := EncAttrs(m.attrs, m.isNew);
    assert Payload(m, devs) == m.rtm + enc;
    AlignedEncoding(m, devs);
    Joined(Header(m, RTMSG_END + |enc|), m.rtm, enc);
  }

  lemma AlignedEncoding(m: Msg, devs: seq<Device>)
    requires MsgWellFormed(m, devs) && |Payload(m, devs)| % 4 == 0
    ensures EncMsg(m, devs) == Header(m, NLMSG_HDRLEN + |Payload(m, devs)|) + Payload(m, devs)
  {
    NothingToPad(Header(m, NLMSG_HDRLEN + |Payload(m, devs)|), Payload(m, devs));
  }

  lemma NothingToPad(h: Bytes, b: Bytes)
    requires |h| == NLMSG_HDRLEN && |b| % 4 == 0
    ensures Padded(h + b) == h + b
  {
    PaddedAligned(h + b);
  }

  lemma Joined(a: Bytes, b: Bytes, c: Bytes)
    ensures a + (b + c) == a + b + c
  {
  }

  lemma PaddedAligned(b: Bytes)
    requires |b| % 4 == 0
    ensures Padded(b) == b
  {
  }

  /** The layout of an encoded route message. */
  lemma RouteLayout(m: Msg, devs: seq<Device>, tail: Bytes)
    requires MsgWellFormed(m, devs) && m.RouteMsg?
    ensures var enc, msg := EncAttrs(m.attrs, m.isNew), EncMsg(m, devs) + tail;
            |msg| >= RTMSG_END && U32(msg) == RTMSG_END + |enc| && msg[17] == m.rtm[1] &&
            U32(msg[24..]) == U32(m.rtm[8..]) && msg[RTMSG_END..] == enc + tail
  {
    var enc := EncAttrs(m.attrs, m.isNew);
    var h, msg := Header(m, RTMSG_END + |enc|), EncMsg(m, devs) + tail;
    RouteEncoding(m, devs);
    RouteHead(m, RTMSG_END + |enc|, enc, tail, msg);
    RtmReadsBack(h, m.rtm, enc, tail);
  }

  lemma RouteHead(m: Msg, len: nat, enc: Bytes, tail: Bytes, msg: Bytes)
    requires m.RouteMsg? && len < 0x8000_0000
    requires m.flags < 0x1_0000 && m.seqNo < 0x1_0000_0000 && m.pid < 0x1_0000_0000
    requires msg == Header(m, len) + m.rtm + enc + tail
    ensures |msg| >= 4 && U32(msg) == len
  {
    assert msg == Header(m, len) + (m.rtm + enc + tail);
    HeaderReadsBack(m, len, m.rtm + enc + tail);
  }

  lemma RouteReadsBack(m: Msg, devs: seq<Device>, tail: Bytes)
    requires MsgWellFormed(m, devs) && m.RouteMsg?
    ensures ProcessRoute(EncMsg(m, devs) + tail, m.isNew) == Fine(Meaning(m, devs))
  {
    RouteLayout(m, devs, tail);
    AttrWalkRoundTrip(m.attrs, m.isNew, tail, RouteAttrs(None, None));
  }

  lemma MsgReadsBack(m: Msg, devs: seq<Device>, tail: Bytes)
    requires MsgWellFormed(m, devs)
    ensures var b := EncMsg(m, devs) + tail;
            MsgOk(b) && Process(b, devs) == Fine(Meaning(m, devs)) && Skip(b, RoundUp4(U32(b))) == tail
  {
    var p, b := Payload(m, devs), EncMsg(m, devs) + tail;
    var h := Header(m, NLMSG_HDRLEN + |p|);
    assert b == h + (p + Zeros(|EncMsg(m, devs)| - NLMSG_HDRLEN - |p|) + tail);
    HeaderReadsBack(m, NLMSG_HDRLEN + |p|, p + Zeros(|EncMsg(m, devs)| - NLMSG_HDRLEN - |p|) + tail);
    if m.RouteMsg? {
      RouteReadsBack(m, devs, tail);
    }
  }

  /** The message walk processes exactly the encoded messages, in order. */
  lemma {:induction false} MsgWalkRoundTrip(ms: seq<Msg>, devs: seq<Device>)
    requires AllWellFormed(ms, devs)
    ensures WalkMsgs(EncMsgs(ms, devs), devs) == Fine(Meanings(ms, devs))
    decreases ms
  {
    if ms != [] {
      MsgReadsBack(ms[0], devs, EncMsgs(ms[1..], devs));
      MsgWalkRoundTrip(ms[1..], devs);
    }
  }

  /** One acknowledgement per route message and one complete dump per dump request, in request order. */
  lemma {:induction false} RepliesInOrder(ms: seq<Msg>, devs: seq<Device>)
    requires AllWellFormed(ms, devs)
    requires forall i :: 0 <= i < |ms| ==> ms[i].RouteMsg?
    ensures RepliesOf(Meanings(ms, devs)) == seq(|ms|, i => Ack(0))
    ensures |OpsOf(Meanings(ms, devs))| == |ms|
    ensures forall i :: 0 <= i < |ms| ==> OpsOf(Meanings(ms, devs))[i] == Meaning(ms[i], devs).op
    decreases ms
  {
    if ms != [] {
      RepliesInOrder(ms[1..], devs);
      var tail := OpsOf(Meanings(ms[1..], devs));
      assert Meanings(ms, devs)[1..] == Meanings(ms[1..], devs);
      assert OpsOf(Meanings(ms, devs)) == [Meaning(ms[0], devs).op] + tail;
    }
  }

  // ---- Where the walk reads ----------------------------------------------------------

  /** Every attribute the walk meets whose payload it reads carries at least four bytes of it. */
  predicate FullPayloads(rest: Bytes, rlen: nat, isNew: bool)
    requires rlen < SIZE_T
    decreases |rest|
  {
    match AttrLength(rest, rlen)
    case Crashed(_) => true
    case Fine(None) => true
    case Fine(Some(alen)) =>
      (U16(rest[2..]) == RTA_SRC || alen >= 8) &&
      FullPayloads(Skip(rest, RoundUp4(alen)), SizeMinus(rlen, RoundUp4(alen)), isNew)
  }

  lemma {:induction false} AlignedStaysInside(rest: Bytes, rlen: nat, isNew: bool, acc: RouteAttrs)
    requires rlen <= |rest| < SIZE_T && rlen % 4 == 0 && FullPayloads(rest, rlen, isNew)
    ensures WalkAttrs(rest, rlen, isNew, acc) != Crashed(ReadsOutside)
    decreases |rest|
  {
    var l := AttrLength(rest, rlen);
    if l.Fine? && l.value.Some? {
      var n := RoundUp4(l.value.value);
      var t := TakeAttr(U16(rest[2..]), rest[RTA_HDRLEN..], isNew, acc);
      if t.Fine? {
        AlignedStaysInside(Skip(rest, n), SizeMinus(rlen, n), isNew, t.value);
      }
    }
  }

  /** A region of `n` bytes, not a multiple of 4, that the walk leaves: source attributes, the last one unpadded. */
  function Overrun(n: nat): (b: Bytes)
    requires n >= 5
    ensures |b| == n
  {
    if n < 9 then LE16(n) + LE16(RTA_SRC) + Zeros(n - 4)
    else LE16(4) + LE16(RTA_SRC) + Overrun(n - 4)
  }

  lemma {:induction false} OverrunReadsOutside(n: nat, isNew: bool, acc: RouteAttrs)
    requires 5 <= n < SIZE_T && n % 4 != 0
    ensures FullPayloads(Overrun(n), n, isNew)
    ensures WalkAttrs(Overrun(n), n, isNew, acc) == Crashed(ReadsOutside)
  {
    var b := Overrun(n);
    var l, k := LE16(if n < 9 then n else 4), LE16(RTA_SRC);
    assert b[0] == l[0] && b[1] == l[1] && b[2..][0] == k[0] && b[2..][1] == k[1];
    assert U16(b) == U16(l) && U16(b[2..]) == RTA_SRC;
    if n < 9 {
      assert AttrLength(b, n) == Fine(Some(n));
      assert Skip(b, RoundUp4(n)) == [];
      var r := SizeMinus(n, RoundUp4(n));
      assert r >= RTA_HDRLEN;
      assert AttrLength([], r) == Crashed(ReadsOutside);
    } else {
      assert AttrLength(b, n) == Fine(Some(4));
      assert Skip(b, RoundUp4(4)) == Overrun(n - 4);
      OverrunReadsOutside(n - 4, isNew, acc);
    }
  }

  /**
   * The walk is confined to its region, for every content with full payloads, exactly when the
   * region's size is a multiple of 4 or too small for an attribute: the size_t counter wraps
   * below zero behind an unpadded last attribute.
   */
  lemma AttrWalkInsideIff(n: nat, isNew: bool, acc: RouteAttrs)
    requires n < SIZE_T
    ensures n % 4 == 0 || n < 5 <==>
            forall b: Bytes :: |b| == n && FullPayloads(b, n, isNew) ==>
                                 WalkAttrs(b, n, isNew, acc) != Crashed(ReadsOutside)
  {
    if n % 4 == 0 {
      forall b: Bytes | |b| == n && FullPayloads(b, n, isNew)
        ensures WalkAttrs(b, n, isNew, acc) != Crashed(ReadsOutside)
      {
        AlignedStaysInside(b, n, isNew, acc);
      }
    } else if n >= 5 {
      OverrunReadsOutside(n, isNew, acc);
    }
  }

  // ---- The value sendto returns --------------------------------------------------------

  lemma {:induction false} LeftoverBounds(rest: Bytes)
    ensures -3 <= Leftover(rest, |rest|) <= |rest|
    ensures MsgOk(rest) ==> Leftover(rest, |rest|) <= |rest| - NLMSG_HDRLEN
    decreases |rest|
  {
    if MsgOk(rest) {
      var n := RoundUp4(U32(rest));
      if n <= |rest| {
        LeftoverBounds(Skip(rest, n));
      }
    }
  }

  /** sendto reports the bytes sent only when it found no message: otherwise it reports what the walk left over. */
  lemma SendToReturn(buf: Bytes)
    requires |buf| < 0x8000_0000
    ensures Leftover(buf, |buf|) % 0x1_0000_0000 == |buf| <==> !MsgOk(buf)
  {
    LeftoverBounds(buf);
  }

  // ---- Dumps ---------------------------------------------------------------------------

  lemma {:induction false} DecimalInjective(m: nat, n: nat)
    requires Decimal(m) == Decimal(n)
    ensures m == n
  {
    var a, b := Decimal(m), Decimal(n);
    assert a[|a| - 1] == Digit(m % 10) && b[|b| - 1] == Digit(n % 10);
    if m >= 10 && n >= 10 {
      assert a[..|a| - 1] == Decimal(m / 10) && b[..|b| - 1] == Decimal(n / 10);
      DecimalInjective(m / 10, n / 10);
    } else {
      assert |a| > 1 <==> m >= 10;
      assert |b| > 1 <==> n >= 10;
    }
  }

  lemma {:induction false} CountGrows(devs: seq<Device>, i: nat, j: nat)
    requires i < j <= |devs|
    ensures CountKind(devs[..i], devs[i].kind) < CountKind(devs[..j], devs[i].kind)
    decreases j
  {
    assert devs[..j][..j - 1] == devs[..j - 1];
    if i < j - 1 {
      CountGrows(devs, i, j - 1);
    }
  }

  /** No two devices of one link dump get the same name. */
  lemma NamesDistinct(devs: seq<Device>, i: nat, j: nat)
    requires i < j < |devs| && AllNamed(devs)
    ensures IfName(devs, i) != IfName(devs, j)
  {
    var a, b := IfName(devs, i), IfName(devs, j);
    if devs[i].kind == devs[j].kind {
      var k := |Prefix(devs[i].kind)|;
      CountGrows(devs, i, j);
      if a == b {
        assert a[k..] == Decimal(CountKind(devs[..i], devs[i].kind));
        assert b[k..] == Decimal(CountKind(devs[..j], devs[j].kind));
        DecimalInjective(CountKind(devs[..i], devs[i].kind), CountKind(devs[..j], devs[j].kind));
      }
    } else {
      assert a[0] == Prefix(devs[i].kind)[0] && b[0] == Prefix(devs[j].kind)[0];
    }
  }

  /** A dump over n > 0 devices: n multipart replies, one per device in order, then one DONE and no other. */
  lemma DumpShape(devs: seq<Device>)
    requires |devs| > 0 && AllNamed(devs)
    ensures var d := Finished(LinkReplies(devs));
            |d| == |devs| + 1 && d[|devs|] == Done &&
            (forall i :: 0 <= i < |devs| ==> d[i] == NewLink(i, IfName(devs, i))) &&
            (forall i, j :: 0 <= i < j < |devs| ==> d[i].name != d[j].name)
  {
    var d := Finished(LinkReplies(devs));
    assert forall i :: 0 <= i < |devs| ==> d[i] == LinkReplies(devs)[i];
    forall i, j | 0 <= i < j < |devs| ensures d[i].name != d[j].name {
      NamesDistinct(devs, i, j);
    }
  }
}
