/**
 * The byte layout of the netlink requests the simulator understands (RFC 3549, sections 2.2,
 * 2.3.2 and 3.1.1) and what one buffer of them means. Numbers are little-endian.
 *
 * Pointers into a buffer are modelled by the bytes from the pointer to the end of the buffer,
 * so reading past the end is visible: it is the outcome ReadsOutside.
 */
module NetlinkWire {
  import opened Base
  import opened Routing
  import opened RoutingHistory

  type Bytes = seq<Byte>

  const NLMSG_HDRLEN: nat := 16
  const RTMSG_END: nat := 28
  const RTA_HDRLEN: nat := 4
  const SIZE_T: nat := 0x1_0000_0000_0000_0000

  const RTM_GETLINK: nat := 18
  const RTM_GETADDR: nat := 22
  const RTM_NEWROUTE: nat := 24
  const RTM_DELROUTE: nat := 25
  const NLM_F_ROOT: nat := 0x100
  const RTM_F_NOTIFY: nat := 0x100

  const RTA_DST: nat := 1
  const RTA_SRC: nat := 2
  const RTA_IIF: nat := 3
  const RTA_OIF: nat := 4
  const RTA_GATEWAY: nat := 5
  const RTA_PRIORITY: nat := 6

  datatype Crash = AssertionFails | ReadsOutside | NotImplemented

  datatype Outcome<+T> = Fine(value: T) | Crashed(why: Crash)

  datatype DeviceKind = Loopback | Wifi | PointToPoint | OtherKind

  /** A device of the simulated node; `addr` is its interface's first address and prefix length. */
  datatype Device = Device(kind: DeviceKind, addr: Option<(Ipv4, nat)>)

  datatype Reply =
    | NewLink(index: nat, name: string)
    | NewAddr(index: nat, prefixLen: nat, addr: Ipv4)
    | Done
    | Ack(error: int)

  /** What processing one message does. */
  datatype Effect =
    | RouteChange(op: RouteOp)
    | Dump(replies: seq<Reply>)

  /** The receive callback of a netlink socket: none, or the closure that operation `op` left for descriptor `fd`. */
  datatype NlCb = NoNl | SelectNl(op: nat, fd: int)

  // ---- Reading numbers ---------------------------------------------------------------

  function U16(b: Bytes): (n: nat)
    requires |b| >= 2
    ensures n < 0x1_0000
  {
    b[0] as int + 0x100 * (b[1] as int)
  }

  function U32(b: Bytes): (n: nat)
    requires |b| >= 4
    ensures n < 0x1_0000_0000
  {
    b[0] as int + 0x100 * (b[1] as int) + 0x1_0000 * (b[2] as int) + 0x100_0000 * (b[3] as int)
  }

  /** Whether the one bit that NLM_F_ROOT stands for is set in a message's flags. */
  predicate IsRoot(flags: nat) {
    flags / NLM_F_ROOT % 2 == 1
  }

  /** The same for RTM_F_NOTIFY in a route message's. */
  predicate AsksForNotice(flags: nat) {
    flags / RTM_F_NOTIFY % 2 == 1
  }

  const BIT_VALUES: seq<nat> := [128, 64, 32, 16, 8, 4, 2, 1]

  /** Four bytes in network order as an address. */
  function AddressOf(b: Bytes): Ipv4
    requires |b| >= 4
  {
    seq(32, i requires 0 <= i < 32 => b[i / 8] / BIT_VALUES[i % 8] % 2 == 1)
  }

  /** The pointer moved forward by `n`; past the end nothing is left to read. */
  function Skip(b: Bytes, n: nat): Bytes {
    if n <= |b| then b[n..] else []
  }

  /** Subtraction on size_t. */
  function SizeMinus(a: nat, b: nat): nat
    requires a < SIZE_T && b < SIZE_T
  {
    if a >= b then a - b else a + SIZE_T - b
  }

  // ---- Attributes --------------------------------------------------------------------

  datatype RouteAttrs = RouteAttrs(dst: Option<Ipv4>, gw: Option<Ipv4>)

  /** One attribute: its type and the bytes from its payload on. */
  function TakeAttr(kind: nat, payload: Bytes, isNew: bool, acc: RouteAttrs): Outcome<RouteAttrs> {
    if kind == RTA_SRC then Fine(acc)
    else if kind == RTA_DST || kind == RTA_GATEWAY || kind == RTA_PRIORITY || kind == RTA_OIF ||
            (isNew && kind == RTA_IIF) then
      if |payload| < 4 then Crashed(ReadsOutside)
      else if kind == RTA_DST then Fine(acc.(dst := Some(AddressOf(payload))))
      else if kind == RTA_GATEWAY then Fine(acc.(gw := Some(AddressOf(payload))))
      else Fine(acc)
    else Crashed(AssertionFails)
  }

  /** RTA_OK: the header is readable and the length is plausible. Reads the length only when the count allows. */
  function AttrLength(rest: Bytes, rlen: nat): Outcome<Option<nat>> {
    if rlen < RTA_HDRLEN then Fine(None)
    else if |rest| < 2 then Crashed(ReadsOutside)
    else if U16(rest) < RTA_HDRLEN || U16(rest) > rlen then Fine(None)
    else if |rest| < RTA_HDRLEN then Crashed(ReadsOutside)
    else Fine(Some(U16(rest)))
  }

  /** The attribute walk over `rest` with `rlen` bytes counted as remaining. */
  function WalkAttrs(rest: Bytes, rlen: nat, isNew: bool, acc: RouteAttrs): Outcome<RouteAttrs>
    requires rlen < SIZE_T
    decreases |rest|
  {
    match AttrLength(rest, rlen)
    case Crashed(why) => Crashed(why)
    case Fine(None) => Fine(acc)
    case Fine(Some(alen)) =>
      match TakeAttr(U16(rest[2..]), rest[RTA_HDRLEN..], isNew, acc)
      case Crashed(why) => Crashed(why)
      case Fine(acc') => WalkAttrs(Skip(rest, RoundUp4(alen)), SizeMinus(rlen, RoundUp4(alen)), isNew, acc')
  }

  // ---- Messages ----------------------------------------------------------------------

  /** RTM_NEWROUTE and RTM_DELROUTE. `msg` runs from the header to the end of the buffer. */
  function ProcessRoute(msg: Bytes, isNew: bool): Outcome<Effect>
    requires |msg| >= NLMSG_HDRLEN
  {
    var mlen := U32(msg);
    if mlen <= NLMSG_HDRLEN then Crashed(AssertionFails)
    else if |msg| < RTMSG_END then Crashed(ReadsOutside)
    else if AsksForNotice(U32(msg[24..])) then Crashed(AssertionFails)
    else
      match WalkAttrs(msg[RTMSG_END..], SizeMinus(mlen, RTMSG_END), isNew, RouteAttrs(None, None))
      case Crashed(why) => Crashed(why)
      case Fine(RouteAttrs(Some(dst), Some(gw))) =>
        Fine(RouteChange(if isNew then AddOp(dst, msg[17], gw) else DelOp(dst, msg[17], gw)))
      case Fine(_) => Crashed(AssertionFails)
  }

  function CountKind(devs: seq<Device>, kind: DeviceKind): nat {
    if devs == [] then 0
    else CountKind(devs[..|devs| - 1], kind) + if devs[|devs| - 1].kind == kind then 1 else 0
  }

  function Digit(n: nat): char
    requires n < 10
  {
    ['0', '1', '2', '3', '4', '5', '6', '7', '8', '9'][n]
  }

  function Decimal(n: nat): (s: string)
    ensures |s| > 0
  {
    if n < 10 then [Digit(n)] else Decimal(n / 10) + [Digit(n % 10)]
  }

  function Prefix(kind: DeviceKind): string {
    match kind
    case Loopback => "lo"
    case Wifi => "wlan"
    case PointToPoint => "eth"
    case OtherKind => ""
  }

  /** The name of device `i`: its kind, numbered among the devices of that kind. */
  function IfName(devs: seq<Device>, i: nat): string
    requires i < |devs|
  {
    Prefix(devs[i].kind) + Decimal(CountKind(devs[..i], devs[i].kind))
  }

  /** A dump is terminated by one DONE, unless there was nothing to dump. */
  function Finished(parts: seq<Reply>): seq<Reply> {
    if parts == [] then [] else parts + [Done]
  }

  function LinkReplies(devs: seq<Device>): seq<Reply> {
    seq(|devs|, i requires 0 <= i < |devs| => NewLink(i, IfName(devs, i)))
  }

  function AddrReplies(devs: seq<Device>): seq<Reply>
    requires forall i :: 0 <= i < |devs| ==> devs[i].addr.Some?
  {
    seq(|devs|, i requires 0 <= i < |devs| => NewAddr(i, devs[i].addr.value.1, devs[i].addr.value.0))
  }

  predicate AllNamed(devs: seq<Device>) {
    forall i :: 0 <= i < |devs| ==> devs[i].kind != OtherKind
  }

  predicate AllAddressed(devs: seq<Device>) {
    forall i :: 0 <= i < |devs| ==> devs[i].addr.Some?
  }

  /** One message, given as the bytes from its header to the end of the buffer. */
  function Process(msg: Bytes, devs: seq<Device>): Outcome<Effect>
    requires |msg| >= NLMSG_HDRLEN
  {
    var kind, root := U16(msg[4..]), IsRoot(U16(msg[6..]));
    if kind == RTM_GETLINK then
      if root && AllNamed(devs) then Fine(Dump(Finished(LinkReplies(devs)))) else Crashed(AssertionFails)
    else if kind == RTM_GETADDR then
      if root && AllAddressed(devs) then Fine(Dump(Finished(AddrReplies(devs)))) else Crashed(AssertionFails)
    else if kind == RTM_NEWROUTE then ProcessRoute(msg, true)
    else if kind == RTM_DELROUTE then ProcessRoute(msg, false)
    else Crashed(NotImplemented)
  }

  /** nlmsg_ok on a buffer whose remaining bytes are `rest`. */
  predicate MsgOk(rest: Bytes) {
    |rest| >= NLMSG_HDRLEN && NLMSG_HDRLEN <= U32(rest) <= |rest|
  }

  function Prepend(e: Effect, tail: Outcome<seq<Effect>>): Outcome<seq<Effect>> {
    match tail
    case Crashed(why) => Crashed(why)
    case Fine(es) => Fine([e] + es)
  }

  /** The message walk over one buffer. */
  function WalkMsgs(rest: Bytes, devs: seq<Device>): Outcome<seq<Effect>>
    decreases |rest|
  {
    if !MsgOk(rest) then Fine([])
    else
      match Process(rest, devs)
      case Crashed(why) => Crashed(why)
      case Fine(e) => Prepend(e, WalkMsgs(Skip(rest, RoundUp4(U32(rest))), devs))
  }

  /** sendmsg: the buffers of the vector one after the other. */
  function WalkBuffers(iov: seq<Bytes>, devs: seq<Device>): Outcome<seq<Effect>> {
    if iov == [] then Fine([])
    else
      match WalkMsgs(iov[0], devs)
      case Crashed(why) => Crashed(why)
      case Fine(es) =>
        match WalkBuffers(iov[1..], devs)
        case Crashed(why) => Crashed(why)
        case Fine(fs) => Fine(es + fs)
  }

  /** The remaining length when the walk stops, as the signed number the walk maintains. */
  function Leftover(rest: Bytes, len: int): int
    decreases |rest|
  {
    if !MsgOk(rest) then len
    else Leftover(Skip(rest, RoundUp4(U32(rest))), len - RoundUp4(U32(rest)))
  }

  function ReplyOf(e: Effect): seq<Reply> {
    if e.RouteChange? then [Ack(0)] else e.replies
  }

  function OpOf(e: Effect): seq<RouteOp> {
    if e.RouteChange? then [e.op] else []
  }

  /** The replies queued, in order: an acknowledgement per route message, a complete dump per dump request. */
  function RepliesOf(es: seq<Effect>): seq<Reply> {
    if es == [] then [] else ReplyOf(es[0]) + RepliesOf(es[1..])
  }

  /** The router operations issued, in order. */
  function OpsOf(es: seq<Effect>): seq<RouteOp> {
    if es == [] then [] else OpOf(es[0]) + OpsOf(es[1..])
  }

  /** Only dumps call the receive callback. */
  predicate Notifies(es: seq<Effect>) {
    exists i :: 0 <= i < |es| && es[i].Dump?
  }

  /** How often a run through these effects calls the receive callback. */
  function Dumps(es: seq<Effect>): nat {
    if es == [] then 0 else (if es[0].Dump? then 1 else 0) + Dumps(es[1..])
  }

  lemma {:induction false} DumpsNotify(es: seq<Effect>)
    ensures Dumps(es) > 0 <==> Notifies(es)
  {
    if es != [] {
      DumpsNotify(es[1..]);
      assert forall i :: 0 < i < |es| ==> es[i] == es[1..][i - 1];
      if Notifies(es[1..]) {
        var i :| 0 <= i < |es[1..]| && es[1..][i].Dump?;
        assert es[i + 1].Dump?;
      }
    }
  }

  lemma {:induction false} DumpsConcat(a: seq<Effect>, b: seq<Effect>)
    ensures Dumps(a + b) == Dumps(a) + Dumps(b)
  {
    if a == [] {
      assert a + b == b;
    } else {
      assert (a + b)[1..] == a[1..] + b;
      DumpsConcat(a[1..], b);
    }
  }

  lemma {:induction false} EffectsConcat(a: seq<Effect>, b: seq<Effect>)
    ensures RepliesOf(a + b) == RepliesOf(a) + RepliesOf(b)
    ensures OpsOf(a + b) == OpsOf(a) + OpsOf(b)
  {
    if a == [] {
      assert a + b == b;
    } else {
      assert (a + b)[1..] == a[1..] + b;
      EffectsConcat(a[1..], b);
      var r, s, t := ReplyOf(a[0]), RepliesOf(a[1..]), RepliesOf(b);
      assert r + (s + t) == (r + s) + t;
      var o, p, q := OpOf(a[0]), OpsOf(a[1..]), OpsOf(b);
      assert o + (p + q) == (o + p) + q;
    }
  }
}
