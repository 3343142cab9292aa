/** Replies byte by byte: what recvmsg copies to the program, and how much of it there is. */
module NetlinkReplies {
  import opened Base
  import opened Routing
  import opened NetlinkWire
  import opened NetlinkCodec
  import opened Addresses
  import NL = Netlink

  /** A reply whose numbers fit their fields; interface names are plain text. */
  predicate Encodable(r: Reply) {
    match r
    case NewLink(index, name) =>
      index < 0x1_0000_0000 && |name| < 1000 && forall i :: 0 <= i < |name| ==> 0 < name[i] as int < 128
    case NewAddr(index, prefixLen, _) => index < 0x1_0000_0000 && prefixLen <= 32
    case Done => true
    case Ack(error) => 0 <= error < 0x1_0000_0000
  }

  function Text(name: string): (b: Bytes)
    requires forall i :: 0 <= i < |name| ==> 0 < name[i] as int < 128
    ensures |b| == |name| && forall i :: 0 <= i < |name| ==> b[i] == name[i] as int
  {
    seq(|name|, i requires 0 <= i < |name| => name[i] as int)
  }

  /** The header: length, type, flags, and no sequence number and no port. */
  function ReplyHeader(len: nat, kind: nat, flags: nat): (b: Bytes)
    requires len < 0x1_0000_0000 && kind < 0x1_0000 && flags < 0x1_0000
    ensures |b| == 16 && U32(b) == len
  {
    LE32(len) + (LE16(kind) + LE16(flags) + Zeros(8))
  }

  /**
   * The address is stored as the host stores a number, least significant byte first; `junk` is what the engine copies
   * from behind its own structures: 8 bytes behind an ifaddrmsg, and the header an acknowledgement should quote.
   */
  function ReplyBytes(r: Reply, junk: Bytes): Bytes
    requires Encodable(r) && |junk| == 16
  {
    match r
    case NewLink(index, name) =>
      ReplyHeader(32 + RoundUp4(5 + |name|), 16, 2) + (Zeros(4) + LE32(index) + Zeros(8)) +
      Padded(LE16(5 + |name|) + LE16(3) + Text(name) + [0])
    case NewAddr(index, prefixLen, addr) =>
      AddressBound(addr);
      ReplyHeader(40, 20, 2) + ([2, prefixLen, 0, 254] + LE32(index) + junk[..8]) + ([8, 0, 1, 0] + LE32(Number(addr)))
    case Done => ReplyHeader(16, 3, 0)
    case Ack(error) => ReplyHeader(36, 2, 4) + (LE32(error) + junk)
  }

  /** What recvmsg returns, and what it checks the buffer against, is the number of bytes and what their header says. */
  lemma ReplyLength(r: Reply, junk: Bytes)
    requires Encodable(r) && |junk| == 16
    ensures |ReplyBytes(r, junk)| == NL.ReplyLen(r) && U32(ReplyBytes(r, junk)) == NL.ReplyLen(r)
  {
    var b := ReplyBytes(r, junk);
    match r
    case NewLink(index, name) =>
      HeaderFirst(ReplyHeader(32 + RoundUp4(5 + |name|), 16, 2), b);
    case NewAddr(_, _, _) => HeaderFirst(ReplyHeader(40, 20, 2), b);
    case Done =>
    case Ack(_) => HeaderFirst(ReplyHeader(36, 2, 4), b);
  }

  lemma HeaderFirst(h: Bytes, b: Bytes)
    requires |h| == 16 && |b| >= 16 && b[..16] == h
    ensures U32(b) == U32(h)
  {
    assert b[0] == h[0] && b[1] == h[1] && b[2] == h[2] && b[3] == h[3];
  }

  /**
   * The address of a device as the program gets it: the right number to who reads it as the host would, but its four
   * bytes are in the wrong order, so who reads them in network order gets another address unless they read the same
   * backwards.
   */
  lemma AddressReplyReversed(index: nat, prefixLen: nat, addr: Ipv4, junk: Bytes)
    requires Encodable(NewAddr(index, prefixLen, addr)) && |junk| == 16
    ensures var b, o := ReplyBytes(NewAddr(index, prefixLen, addr), junk), Octets(addr);
            |b| == 40 && b[36..] == [o[3], o[2], o[1], o[0]] && U32(b[36..]) == Number(addr) &&
            (AddressOf(b[36..]) == addr <==> o[0] == o[3] && o[1] == o[2])
  {
    var b, o := ReplyBytes(NewAddr(index, prefixLen, addr), junk), Octets(addr);
    AddressBound(addr);
    var l := LE32(Number(addr));
    assert b[36..] == l;
    LittleIsReversed(Number(addr));
    AddressRoundTrip(addr);
    OctetsRoundTrip(o[3], o[2], o[1], o[0]);
    assert o == [o[0], o[1], o[2], o[3]];
  }

  lemma LittleIsReversed(n: nat)
    requires n < 0x1_0000_0000
    ensures var o := OctetsOf(n); LE32(n) == [o[3], o[2], o[1], o[0]]
  {
    var low, high := n % 0x1_0000, n / 0x1_0000;
    assert n / 0x100 / 0x100 == high;
    assert low % 0x100 == n % 0x100 && low / 0x100 == n / 0x100 % 0x100;
  }

  /** The octets of an address are the bytes it was read from. */
  lemma OctetsRoundTrip(a: Byte, b: Byte, c: Byte, d: Byte)
    ensures Octets(AddressOf([a, b, c, d])) == [a, b, c, d]
  {
    AddressNumber(a, b, c, d);
    var n := Number(AddressOf([a, b, c, d]));
    assert n / 0x100 == a * 0x1_0000 + b * 0x100 + c && n % 0x100 == d;
    assert n / 0x100 / 0x100 == a * 0x100 + b && n / 0x100 % 0x100 == c;
  }

  /** The name of a link, with the zero byte that ends it. */
  lemma LinkReplyName(index: nat, name: string, junk: Bytes)
    requires Encodable(NewLink(index, name)) && |junk| == 16
    ensures var b := ReplyBytes(NewLink(index, name), junk);
            |b| >= 37 + |name| && b[36..36 + |name|] == Text(name) && b[36 + |name|] == 0
  {
    var b := ReplyBytes(NewLink(index, name), junk);
    var attr := LE16(5 + |name|) + LE16(3) + Text(name) + [0];
    assert b[32..] == Padded(attr);
    assert attr <= b[32..];
    assert b[36..36 + |name|] == b[32..][4..4 + |name|];
  }
}
