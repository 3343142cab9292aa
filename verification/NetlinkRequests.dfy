/**
 * Requests byte by byte: what the bytes that programs send mean, with every number written out (RFC 3549, sections
 * 2.2, 2.3.2 and 3.1.1; rtnetlink's message types, flags and attribute types).
 */
module NetlinkRequests {
  import opened Base
  import opened RoutingHistory
  import opened NetlinkWire
  import opened NetlinkCodec
  import opened Addresses

  // ---- Routes -------------------------------------------------------------------------------------

  /** The fields of a route request that the simulator does not look at. */
  datatype Fields = Fields(flags: Bytes, seqNo: Bytes, pid: Bytes, family: Byte, other: Bytes)

  predicate FieldsOk(x: Fields) {
    |x.flags| == 2 && |x.seqNo| == 4 && |x.pid| == 4 && |x.other| == 6
  }

  /** A request to add or delete a route, as a program sends it. */
  function RouteRequest(op: RouteOp, x: Fields): (b: Bytes)
    requires FieldsOk(x)
  {
    [44, 0, 0, 0, if op.AddOp? then 24 else 25, 0] + x.flags + x.seqNo + x.pid +
    ([x.family, op.len] + x.other + [0, 0, 0, 0]) +
    ([8, 0, 1, 0] + Octets(op.dst) + ([8, 0, 5, 0] + Octets(op.gw)))
  }

  /** The same in the encoder's terms. */
  function RouteMessage(op: RouteOp, x: Fields): (m: Msg)
    requires FieldsOk(x)
    ensures m.RouteMsg?
  {
    RouteMsg(op.AddOp?, U16(x.flags), U32(x.seqNo), U32(x.pid), [x.family, op.len] + x.other + [0, 0, 0, 0],
             [Attr(RTA_DST, Octets(op.dst)), Attr(RTA_GATEWAY, Octets(op.gw))])
  }

  lemma LE16Inverse(b: Bytes)
    requires |b| == 2
    ensures LE16(U16(b)) == b
  {
  }

  lemma LE32Inverse(b: Bytes)
    requires |b| == 4
    ensures LE32(U32(b)) == b
  {
    var n := U32(b);
    assert n % 0x1_0000 == U16(b[..2]) && n / 0x1_0000 == U16(b[2..]);
    LE16Inverse(b[..2]);
    LE16Inverse(b[2..]);
    assert b == b[..2] + b[2..];
  }

  lemma AddressAttr(kind: nat, b: Bytes)
    requires kind < 0x100 && |b| == 4
    ensures EncAttr(Attr(kind, b)) == [8, 0, kind, 0] + b
  {
    PaddedAligned(LE16(8) + LE16(kind) + b);
  }

  lemma RequestAttrs(op: RouteOp)
    ensures var attrs := [Attr(RTA_DST, Octets(op.dst)), Attr(RTA_GATEWAY, Octets(op.gw))];
            AttrsOk(attrs, op.AddOp?) && LastOf(attrs, RTA_DST) == Some(op.dst) &&
            LastOf(attrs, RTA_GATEWAY) == Some(op.gw) &&
            EncAttrs(attrs, op.AddOp?) == [8, 0, 1, 0] + Octets(op.dst) + ([8, 0, 5, 0] + Octets(op.gw))
  {
    var d, g := Attr(RTA_DST, Octets(op.dst)), Attr(RTA_GATEWAY, Octets(op.gw));
    var attrs := [d, g];
    assert attrs[1..] == [g] && [g][1..] == [];
    AddressRoundTrip(op.dst);
    AddressRoundTrip(op.gw);
    AddressAttr(RTA_DST, d.payload);
    AddressAttr(RTA_GATEWAY, g.payload);
    assert LastOf([g][1..], RTA_DST) == None && LastOf([g][1..], RTA_GATEWAY) == None;
    assert LastOf([g], RTA_DST) == None && LastOf([g], RTA_GATEWAY) == Some(op.gw);
    assert LastOf(attrs[1..], RTA_DST) == None;
    assert EncAttrs([g], op.AddOp?) == EncAttr(g) + [];
    assert EncAttrs(attrs, op.AddOp?) == EncAttr(d) + EncAttrs([g], op.AddOp?);
  }

  lemma RouteMessageOk(op: RouteOp, x: Fields, devs: seq<Device>)
    requires FieldsOk(x)
    ensures MsgWellFormed(RouteMessage(op, x), devs) && Meaning(RouteMessage(op, x), devs) == RouteChange(op)
  {
    var m := RouteMessage(op, x);
    RequestAttrs(op);
    assert |m.rtm| == 12 && m.rtm[1] == op.len;
    assert m.rtm[8..] == [0, 0, 0, 0];
  }

  lemma RouteHeader(op: RouteOp, x: Fields)
    requires FieldsOk(x)
    ensures Header(RouteMessage(op, x), 44) ==
            [44, 0, 0, 0, if op.AddOp? then 24 else 25, 0] + x.flags + x.seqNo + x.pid
  {
    LE16Inverse(x.flags);
    LE32Inverse(x.seqNo);
    LE32Inverse(x.pid);
    assert LE32(44) == [44, 0, 0, 0];
    assert LE16(24) == [24, 0] && LE16(25) == [25, 0];
  }

  lemma RouteBytes(op: RouteOp, x: Fields, devs: seq<Device>)
    requires FieldsOk(x) && MsgWellFormed(RouteMessage(op, x), devs)
    ensures EncMsg(RouteMessage(op, x), devs) == RouteRequest(op, x)
  {
    var m := RouteMessage(op, x);
    RequestAttrs(op);
    RouteHeader(op, x);
    RouteEncoding(m, devs);
  }

  /**
   * The bytes of a route request ask for just that route: the four bytes of an address count from the most significant
   * one, the prefix length is the second byte behind the header.
   */
  lemma RouteRequestUnderstood(op: RouteOp, x: Fields, devs: seq<Device>, tail: Bytes)
    requires FieldsOk(x)
    ensures var b := RouteRequest(op, x) + tail;
            MsgOk(b) && Process(b, devs) == Fine(RouteChange(op)) && Skip(b, RoundUp4(U32(b))) == tail
  {
    RouteMessageOk(op, x, devs);
    RouteBytes(op, x, devs);
    MsgReadsBack(RouteMessage(op, x), devs, tail);
  }

  /**
   * Source addresses (2), output interfaces (4), priorities (6), and for a new route input interfaces (3), are taken
   * and make no difference; the last destination and gateway count.
   */
  predicate Ignored(a: Attr, isNew: bool) {
    |a.payload| == 4 && (a.kind in {2, 4, 6} || (isNew && a.kind == 3))
  }

  lemma {:induction false} LastBehind(more: seq<Attr>, attrs: seq<Attr>, kind: nat)
    requires LastOf(attrs, kind).Some?
    ensures LastOf(more + attrs, kind) == LastOf(attrs, kind)
  {
    if more == [] {
      assert more + attrs == attrs;
    } else {
      assert (more + attrs)[1..] == more[1..] + attrs;
      LastBehind(more[1..], attrs, kind);
    }
  }

  lemma {:induction false} MoreLength(more: seq<Attr>, attrs: seq<Attr>, isNew: bool)
    requires AttrsOk(attrs, isNew) && forall i :: 0 <= i < |more| ==> Ignored(more[i], isNew)
    ensures AttrsOk(more + attrs, isNew) && |EncAttrs(more + attrs, isNew)| == 8 * |more| + |EncAttrs(attrs, isNew)|
  {
    if more == [] {
      assert more + attrs == attrs;
    } else {
      assert (more + attrs)[1..] == more[1..] + attrs;
      MoreLength(more[1..], attrs, isNew);
    }
  }

  function WithMore(m: Msg, more: seq<Attr>): Msg
    requires m.RouteMsg?
  {
    m.(attrs := more + m.attrs)
  }

  lemma RequestWithMore(op: RouteOp, x: Fields, more: seq<Attr>, devs: seq<Device>, tail: Bytes)
    requires FieldsOk(x) && forall i :: 0 <= i < |more| ==> Ignored(more[i], op.AddOp?)
    requires 44 + 8 * |more| < 0x8000_0000
    ensures var m := WithMore(RouteMessage(op, x), more);
            MsgWellFormed(m, devs) && Process(EncMsg(m, devs) + tail, devs) == Fine(RouteChange(op))
  {
    var m := RouteMessage(op, x);
    RouteMessageOk(op, x, devs);
    RequestAttrs(op);
    MoreLength(more, m.attrs, op.AddOp?);
    LastBehind(more, m.attrs, RTA_DST);
    LastBehind(more, m.attrs, RTA_GATEWAY);
    assert m.rtm[8..] == [0, 0, 0, 0];
    MsgReadsBack(WithMore(m, more), devs, tail);
  }

  /** A request that asks for a notification (bit 8 of the route's flags) stops the simulator. */
  lemma NoticeIsRefused(msg: Bytes, devs: seq<Device>)
    requires |msg| >= 28 && msg[4] in {24, 25} && msg[5] == 0 && msg[25] % 2 == 1
    ensures Process(msg, devs) == Crashed(AssertionFails)
  {
    var flags := msg[24..];
    assert U32(flags) / 0x100 % 2 == 1 by {
      var high := flags[1] as int + 0x100 * (flags[2] as int + 0x100 * flags[3] as int);
      assert U32(flags) == flags[0] as int + 0x100 * high;
      assert U32(flags) / 0x100 == high;
    }
  }

  // ---- Dumps --------------------------------------------------------------------------------------

  /** What a name of the dump ends in, read as a number. */
  function Numeral(s: string): nat
    requires forall i :: 0 <= i < |s| ==> '0' <= s[i] <= '9'
  {
    if s == [] then 0 else 10 * Numeral(s[..|s| - 1]) + (s[|s| - 1] - '0') as nat
  }

  lemma {:induction false} DecimalIsNumeral(n: nat)
    ensures var d := Decimal(n); (forall i :: 0 <= i < |d| ==> '0' <= d[i] <= '9') && Numeral(d) == n
  {
    var d := Decimal(n);
    if n >= 10 {
      DecimalIsNumeral(n / 10);
      assert d[..|d| - 1] == Decimal(n / 10);
    } else {
      assert d[..|d| - 1] == [];
    }
    DigitIsNumeral(n % 10);
  }

  lemma DigitIsNumeral(n: nat)
    requires n < 10
    ensures '0' <= Digit(n) <= '9' && (Digit(n) - '0') as nat == n
  {
  }

  /** The devices before the i-th that are of its kind. */
  function Earlier(devs: seq<Device>, i: nat): set<nat>
    requires i < |devs|
  {
    set j: nat | j < i && devs[j].kind == devs[i].kind
  }

  lemma {:induction false} CountIsCardinality(devs: seq<Device>, n: nat, kind: DeviceKind)
    requires n <= |devs|
    ensures CountKind(devs[..n], kind) == |set j: nat | j < n && devs[j].kind == kind|
    decreases n
  {
    var s := set j: nat | j < n && devs[j].kind == kind;
    if n > 0 {
      CountIsCardinality(devs, n - 1, kind);
      assert devs[..n][..n - 1] == devs[..n - 1];
      var rest := set j: nat | j < n - 1 && devs[j].kind == kind;
      assert s == rest + if devs[n - 1].kind == kind then {n - 1} else {};
    } else {
      assert s == {};
    }
  }

  /** A link is named by its kind and by how many links of that kind come before it. */
  predicate Named(devs: seq<Device>, i: nat, name: string)
    requires i < |devs|
  {
    var k := devs[i].kind;
    var prefix := if k == Loopback then "lo" else if k == Wifi then "wlan" else "eth";
    |prefix| < |name| && name[..|prefix|] == prefix && (forall j :: |prefix| <= j < |name| ==> '0' <= name[j] <= '9') &&
    Numeral(name[|prefix|..]) == |Earlier(devs, i)|
  }

  lemma NameIsRight(devs: seq<Device>, i: nat)
    requires i < |devs| && devs[i].kind != OtherKind
    ensures Named(devs, i, IfName(devs, i))
  {
    var prefix, number := Prefix(devs[i].kind), Decimal(CountKind(devs[..i], devs[i].kind));
    DecimalIsNumeral(CountKind(devs[..i], devs[i].kind));
    CountIsCardinality(devs, i, devs[i].kind);
    assert (prefix + number)[..|prefix|] == prefix && (prefix + number)[|prefix|..] == number;
    assert Earlier(devs, i) == set j: nat | j < i && devs[j].kind == devs[i].kind;
  }

  predicate DescribesLink(r: Reply, devs: seq<Device>, i: nat)
    requires i < |devs|
  {
    r.NewLink? && r.index == i && Named(devs, i, r.name)
  }

  /** The replies are one for each device and a last one that says so. */
  predicate Complete(replies: seq<Reply>, devs: seq<Device>) {
    if devs == [] then replies == []
    else |replies| == |devs| + 1 && replies[|devs|] == Done && forall i :: 0 <= i < |devs| ==> replies[i] != Done
  }

  /**
   * Message type 18 asks for the links. With the dump flag (bit 8) set, and only network devices of the three kinds,
   * it is answered with one part for each device, in order, with its index and its name.
   */
  lemma LinkDumpUnderstood(msg: Bytes, devs: seq<Device>)
    requires |msg| >= 16 && msg[4] == 18 && msg[5] == 0
    ensures var e := Process(msg, devs);
            (e.Fine? <==>
             msg[7] % 2 == 1 && forall i :: 0 <= i < |devs| ==> devs[i].kind in {Loopback, Wifi, PointToPoint}) &&
            (e.Fine? ==> e.value.Dump? && Complete(e.value.replies, devs) &&
                         forall i :: 0 <= i < |devs| ==> DescribesLink(e.value.replies[i], devs, i))
  {
    DumpFlag(msg);
    if Process(msg, devs).Fine? {
      forall i | 0 <= i < |devs| ensures Named(devs, i, IfName(devs, i)) {
        NameIsRight(devs, i);
      }
    }
  }

  /**
   * Message type 22 asks for the addresses: one part for each device, in order, with its index and exactly the address
   * and prefix length of this device.
   */
  lemma AddressDumpUnderstood(msg: Bytes, devs: seq<Device>)
    requires |msg| >= 16 && msg[4] == 22 && msg[5] == 0
    ensures var e := Process(msg, devs);
            (e.Fine? <==> msg[7] % 2 == 1 && forall i :: 0 <= i < |devs| ==> devs[i].addr.Some?) &&
            (e.Fine? ==> e.value.Dump? && Complete(e.value.replies, devs) &&
                         forall i :: 0 <= i < |devs| ==>
                                       e.value.replies[i] == NewAddr(i, devs[i].addr.value.1, devs[i].addr.value.0))
  {
    DumpFlag(msg);
  }

  lemma DumpFlag(msg: Bytes)
    requires |msg| >= 16
    ensures IsRoot(U16(msg[6..])) <==> msg[7] % 2 == 1
  {
  }
}
