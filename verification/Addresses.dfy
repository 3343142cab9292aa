/** Addresses as numbers and as four bytes in network order, and what a prefix is in terms of numbers. */
module Addresses {
  import opened Base
  import opened Routing
  import opened NetlinkWire
  import PD = PollDetector

  /** Bits as a number, the most significant one first. */
  function Number(bits: seq<bool>): nat {
    if bits == [] then 0 else 2 * Number(bits[..|bits| - 1]) + if bits[|bits| - 1] then 1 else 0
  }

  lemma {:induction false} NumberConcat(a: seq<bool>, b: seq<bool>)
    ensures Number(a + b) == Number(a) * PD.Pow2(|b|) + Number(b)
    decreases b
  {
    if b == [] {
      assert a + b == a;
    } else {
      var front := b[..|b| - 1];
      assert (a + b)[..|a + b| - 1] == a + front;
      NumberConcat(a, front);
      assert Number(a) * PD.Pow2(|front|) * 2 == Number(a) * PD.Pow2(|b|);
    }
  }

  lemma {:induction false} NumberBound(a: seq<bool>)
    ensures Number(a) < PD.Pow2(|a|)
  {
    if a != [] {
      NumberBound(a[..|a| - 1]);
    }
  }

  lemma {:induction false} NumberInjective(a: seq<bool>, b: seq<bool>)
    requires |a| == |b| && Number(a) == Number(b)
    ensures a == b
  {
    if a != [] {
      var x, y := a[..|a| - 1], b[..|b| - 1];
      NumberInjective(x, y);
      assert a == x + [a[|a| - 1]] && b == y + [b[|b| - 1]];
    }
  }

  // ---- Prefixes ---------------------------------------------------------------------------------

  /** The leading bits are the quotient. */
  lemma LeadingBits(a: seq<bool>, k: nat)
    requires k <= |a|
    ensures Number(a[..k]) == Number(a) / PD.Pow2(|a| - k)
  {
    var high, low := a[..k], a[k..];
    assert a == high + low;
    NumberConcat(high, low);
    NumberBound(low);
    Quotient(Number(high), PD.Pow2(|low|), Number(low));
  }

  lemma Quotient(q: nat, d: nat, r: nat)
    requires r < d
    ensures (q * d + r) / d == q
  {
    var n, x := q * d + r, (q * d + r) / d;
    assert x * d <= n < x * d + d;
    SmallerFactor(x, q + 1, d);
    SmallerFactor(q, x + 1, d);
  }

  lemma SmallerFactor(a: nat, b: nat, d: nat)
    requires a * d < b * d
    ensures a < b
  {
    if b <= a {
      LargerFactor(b, a, d);
    }
  }

  lemma LargerFactor(a: nat, b: nat, d: nat)
    requires a <= b
    ensures a * d <= b * d
  {
    assert (b - a) * d >= 0;
  }

  /** An entry covers a destination exactly if the two numbers agree in what its length leaves of them. */
  lemma CoversNumbers(e: RtEntry, dst: Ipv4)
    requires e.len <= 32
    ensures Covers(e, dst) <==> Number(e.dst) / PD.Pow2(32 - e.len) == Number(dst) / PD.Pow2(32 - e.len)
  {
    CoversMeaning(e, dst);
    LeadingBits(e.dst, e.len);
    LeadingBits(dst, e.len);
    if Number(e.dst[..e.len]) == Number(dst[..e.len]) {
      NumberInjective(e.dst[..e.len], dst[..e.len]);
    }
  }

  // ---- Four bytes -------------------------------------------------------------------------------

  /** The last `k` bits of a number. */
  function Bits(n: nat, k: nat): (b: seq<bool>)
    ensures |b| == k
  {
    if k == 0 then [] else Bits(n / 2, k - 1) + [n % 2 == 1]
  }

  lemma {:induction false} BitsNumber(n: nat, k: nat)
    requires n < PD.Pow2(k)
    ensures Number(Bits(n, k)) == n
  {
    if k > 0 {
      BitsNumber(n / 2, k - 1);
      assert Bits(n, k)[..k - 1] == Bits(n / 2, k - 1);
    }
  }

  lemma DivideTwice(n: nat, d: nat)
    requires d > 0
    ensures n / 2 / d == n / (2 * d)
  {
    var q, r := n / 2 / d, n / 2 % d;
    assert n / 2 == q * d + r;
    assert n == q * (2 * d) + (2 * r + n % 2);
    Quotient(q, 2 * d, 2 * r + n % 2);
  }

  lemma {:induction false} BitAt(n: nat, k: nat, j: nat)
    requires j < k
    ensures Bits(n, k)[j] == (n / PD.Pow2(k - 1 - j) % 2 == 1)
    decreases k
  {
    if j < k - 1 {
      BitAt(n / 2, k - 1, j);
      DivideTwice(n, PD.Pow2(k - 2 - j));
    } else {
      assert PD.Pow2(0) == 1;
    }
  }

  lemma BitValue(j: nat)
    requires j < 8
    ensures BIT_VALUES[j] == PD.Pow2(7 - j)
  {
    assert PD.Pow2(3) == 8;
    assert PD.Pow2(6) == 64;
    assert PD.Pow2(7) == 128;
  }

  lemma Segment(w: seq<bool>, x: seq<bool>, y: seq<bool>, z: seq<bool>, i: nat)
    requires |w| == 8 && |x| == 8 && |y| == 8 && |z| == 8 && i < 32
    ensures (w + x + (y + z))[i] == [w, x, y, z][i / 8][i % 8]
  {
  }

  lemma AddressBits(a: Byte, b: Byte, c: Byte, d: Byte)
    ensures AddressOf([a, b, c, d]) == Bits(a, 8) + Bits(b, 8) + (Bits(c, 8) + Bits(d, 8))
  {
    var s, t := AddressOf([a, b, c, d]), Bits(a, 8) + Bits(b, 8) + (Bits(c, 8) + Bits(d, 8));
    forall i | 0 <= i < 32 ensures s[i] == t[i] {
      Segment(Bits(a, 8), Bits(b, 8), Bits(c, 8), Bits(d, 8), i);
      AddressBit([a, b, c, d], i);
    }
  }

  lemma AddressBit(b: Bytes, i: nat)
    requires |b| == 4 && i < 32
    ensures AddressOf(b)[i] == Bits(b[i / 8], 8)[i % 8]
  {
    BitAt(b[i / 8], 8, i % 8);
    BitValue(i % 8);
  }

  lemma Powers()
    ensures PD.Pow2(8) == 0x100 && PD.Pow2(16) == 0x1_0000 && PD.Pow2(32) == 0x1_0000_0000
  {
    assert PD.Pow2(4) == 16;
    assert PD.Pow2(12) == 0x1000;
    assert PD.Pow2(20) == 0x10_0000;
    assert PD.Pow2(24) == 0x100_0000;
    assert PD.Pow2(28) == 0x1000_0000;
  }

  /** Four bytes are read in network order: the first is the most significant. */
  lemma AddressNumber(a: Byte, b: Byte, c: Byte, d: Byte)
    ensures Number(AddressOf([a, b, c, d])) == a * 0x100_0000 + b * 0x1_0000 + c * 0x100 + d
  {
    AddressBits(a, b, c, d);
    Powers();
    NumberConcat(Bits(a, 8) + Bits(b, 8), Bits(c, 8) + Bits(d, 8));
    NumberConcat(Bits(a, 8), Bits(b, 8));
    NumberConcat(Bits(c, 8), Bits(d, 8));
    BitsNumber(a, 8);
    BitsNumber(b, 8);
    BitsNumber(c, 8);
    BitsNumber(d, 8);
  }

  /** The four bytes of a number, most significant first. */
  function OctetsOf(n: nat): (b: Bytes)
    requires n < 0x1_0000_0000
    ensures |b| == 4
  {
    [n / 0x100 / 0x100 / 0x100, n / 0x100 / 0x100 % 0x100, n / 0x100 % 0x100, n % 0x100]
  }

  lemma OctetsSum(n: nat)
    requires n < 0x1_0000_0000
    ensures var b := OctetsOf(n);
            b[0] as int * 0x100_0000 + b[1] as int * 0x1_0000 + b[2] as int * 0x100 + b[3] as int == n
  {
  }

  lemma AddressBound(a: Ipv4)
    ensures Number(a) < 0x1_0000_0000
  {
    NumberBound(a);
    Powers();
  }

  /** How an address travels. */
  function Octets(a: Ipv4): (b: Bytes)
    ensures |b| == 4
  {
    AddressBound(a);
    OctetsOf(Number(a))
  }

  /** Written and read back. */
  lemma AddressRoundTrip(a: Ipv4)
    ensures AddressOf(Octets(a)) == a
  {
    AddressBound(a);
    var b := OctetsOf(Number(a));
    assert b == [b[0], b[1], b[2], b[3]];
    AddressNumber(b[0], b[1], b[2], b[3]);
    OctetsSum(Number(a));
    NumberInjective(AddressOf(b), a);
  }
}
