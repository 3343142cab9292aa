/**
 * The routing table that the traced application edits, and the forwarding decision taken
 * from it. An address is its 32 bits, most significant first.
 */
module Routing {
  import opened Base

  type Ipv4 = s: seq<bool> | |s| == 32 witness seq(32, _ => false)

  datatype RtEntry = RtEntry(dst: Ipv4, len: Byte, gw: Ipv4)

  datatype Key = Key(dst: Ipv4, len: Byte)

  /** An address of an interface, with its mask. */
  datatype IfAddr = IfAddr(local: Ipv4, mask: Ipv4)

  datatype Route = Route(dst: Ipv4, gw: Ipv4, src: Ipv4, ifIndex: nat)

  /** Masked equality. */
  predicate IsMatch(mask: Ipv4, a: Ipv4, b: Ipv4) {
    forall i :: 0 <= i < 32 && mask[i] ==> a[i] == b[i]
  }

  function PrefixMask(len: nat): Ipv4
    requires len <= 32
  {
    seq(32, i => i < len)
  }

  function KeyOf(e: RtEntry): Key {
    Key(e.dst, e.len)
  }

  /** Entry equality ignores the gateway. */
  predicate SameEntry(a: RtEntry, b: RtEntry) {
    a.dst == b.dst && a.len == b.len
  }

  /** Prefix lengths for which the mask constructor is defined. */
  predicate ValidLengths(es: seq<RtEntry>) {
    forall i :: 0 <= i < |es| ==> es[i].len <= 32
  }

  predicate Covers(e: RtEntry, dst: Ipv4)
    requires e.len <= 32
  {
    IsMatch(PrefixMask(e.len), e.dst, dst)
  }

  /** A match means that the leading `len` bits agree. */
  lemma CoversMeaning(e: RtEntry, dst: Ipv4)
    requires e.len <= 32
    ensures Covers(e, dst) <==> e.dst[..e.len] == dst[..e.len]
  {
    var m := PrefixMask(e.len);
    if e.dst[..e.len] == dst[..e.len] {
      forall i | 0 <= i < 32 && m[i] ensures e.dst[i] == dst[i] {
        assert e.dst[i] == e.dst[..e.len][i] && dst[i] == dst[..e.len][i];
      }
    }
    if Covers(e, dst) {
      forall i | 0 <= i < e.len ensures e.dst[..e.len][i] == dst[..e.len][i] {
        assert m[i];
      }
    }
  }

  // ---- The table as a sequence -------------------------------------------------------

  ghost predicate KeysDistinct(es: seq<RtEntry>) {
    forall i, j :: 0 <= i < j < |es| ==> KeyOf(es[i]) != KeyOf(es[j])
  }

  /** Position of the first entry with key `k`, or the length. */
  function IndexOf(es: seq<RtEntry>, k: Key): (i: nat)
    ensures i <= |es|
    ensures i < |es| ==> KeyOf(es[i]) == k
    ensures forall j :: 0 <= j < i ==> KeyOf(es[j]) != k
  {
    if es == [] || KeyOf(es[0]) == k then 0 else 1 + IndexOf(es[1..], k)
  }

  function Removed(es: seq<RtEntry>, k: Key): seq<RtEntry> {
    var i := IndexOf(es, k);
    if i < |es| then es[..i] + es[i + 1..] else es
  }

  function Added(es: seq<RtEntry>, e: RtEntry): seq<RtEntry> {
    Removed(es, KeyOf(e)) + [e]
  }

  /** The table as a map from destination and length to gateway. */
  ghost function Abs(es: seq<RtEntry>): map<Key, Ipv4> {
    map k: Key | k in Keys(es) :: es[IndexOf(es, k)].gw
  }

  ghost function Keys(es: seq<RtEntry>): set<Key> {
    set i | 0 <= i < |es| :: KeyOf(es[i])
  }

  lemma AbsAt(es: seq<RtEntry>, i: nat)
    requires KeysDistinct(es) && i < |es|
    ensures KeyOf(es[i]) in Abs(es) && Abs(es)[KeyOf(es[i])] == es[i].gw
  {
    var j := IndexOf(es, KeyOf(es[i]));
    assert j == i;
  }

  lemma AbsFrom(es: seq<RtEntry>, k: Key)
    requires k in Abs(es)
    ensures IndexOf(es, k) < |es| && es[IndexOf(es, k)] == RtEntry(k.dst, k.len, Abs(es)[k])
  {
  }

  /** Where the entries go: those behind the removed one move up. */
  lemma RemovedShape(es: seq<RtEntry>, k: Key)
    ensures var i, rs := IndexOf(es, k), Removed(es, k);
            (i == |es| ==> rs == es) && (i < |es| ==> |rs| == |es| - 1) &&
            (forall j :: 0 <= j < |rs| ==> rs[j] == es[if j < i then j else j + 1])
  {
    var i, rs := IndexOf(es, k), Removed(es, k);
    if i < |es| {
      WithoutAt(es, i);
    }
  }

  lemma WithoutAt<T>(s: seq<T>, i: nat)
    requires i < |s|
    ensures var t := s[..i] + s[i + 1..];
            |t| == |s| - 1 && forall j :: 0 <= j < |t| ==> t[j] == s[if j < i then j else j + 1]
  {
  }

  lemma KeptAt(es: seq<RtEntry>, k: Key, j: nat)
    requires j < |es| && j != IndexOf(es, k)
    ensures var p := if j < IndexOf(es, k) then j else j - 1;
            p < |Removed(es, k)| && Removed(es, k)[p] == es[j]
  {
  }

  lemma RemovedDistinct(es: seq<RtEntry>, k: Key)
    requires KeysDistinct(es)
    ensures KeysDistinct(Removed(es, k)) && forall j :: 0 <= j < |Removed(es, k)| ==> KeyOf(Removed(es, k)[j]) != k
  {
    RemovedShape(es, k);
  }

  lemma KeysOfRemoved(es: seq<RtEntry>, k: Key, q: Key)
    requires KeysDistinct(es) && q in Abs(es) && q != k
    ensures q in Abs(Removed(es, k))
  {
    AbsFrom(es, q);
    KeptAt(es, k, IndexOf(es, q));
  }

  /** Deleting removes the key and keeps the rest, whatever gateway was named. */
  lemma RemovedRefines(es: seq<RtEntry>, k: Key)
    requires KeysDistinct(es)
    ensures KeysDistinct(Removed(es, k))
    ensures Abs(Removed(es, k)) == Abs(es) - {k}
  {
    var i, rs := IndexOf(es, k), Removed(es, k);
    RemovedShape(es, k);
    RemovedDistinct(es, k);
    forall q | q in Abs(rs) ensures q in Abs(es) - {k} && Abs(rs)[q] == Abs(es)[q] {
      var j := IndexOf(rs, q);
      AbsFrom(rs, q);
      AbsAt(es, if j < i then j else j + 1);
    }
    forall q | q in Abs(es) - {k} ensures q in Abs(rs) {
      KeysOfRemoved(es, k, q);
    }
  }

  lemma AddedDistinct(es: seq<RtEntry>, e: RtEntry)
    requires KeysDistinct(es)
    ensures KeysDistinct(Added(es, e))
  {
    var k, rs := KeyOf(e), Removed(es, KeyOf(e));
    RemovedRefines(es, k);
    forall j | 0 <= j < |rs| ensures KeyOf(rs[j]) != k {
      AbsAt(rs, j);
    }
  }

  /** Adding is map update. */
  lemma AddedRefines(es: seq<RtEntry>, e: RtEntry)
    requires KeysDistinct(es)
    ensures KeysDistinct(Added(es, e))
    ensures Abs(Added(es, e)) == Abs(es)[KeyOf(e) := e.gw]
  {
    var k, rs, ns := KeyOf(e), Removed(es, KeyOf(e)), Added(es, e);
    RemovedRefines(es, k);
    AddedDistinct(es, e);
    forall q | q in Abs(ns) ensures q in Abs(es)[k := e.gw] && Abs(ns)[q] == Abs(es)[k := e.gw][q] {
      var j := IndexOf(ns, q);
      AbsFrom(ns, q);
      if j < |rs| {
        assert ns[j] == rs[j];
        AbsAt(rs, j);
      }
    }
    forall q | q in Abs(es)[k := e.gw] ensures q in Abs(ns) {
      if q == k {
        assert ns[|rs|] == e;
      } else {
        AbsFrom(rs, q);
        assert ns[IndexOf(rs, q)] == rs[IndexOf(rs, q)];
      }
    }
  }

  // ---- The decision ------------------------------------------------------------------

  /** Entry `i` covers `dst`, is at least as long as every covering entry, and is the first such. */
  ghost predicate IsBest(es: seq<RtEntry>, dst: Ipv4, i: int)
    requires ValidLengths(es)
  {
    0 <= i < |es| && Covers(es[i], dst) &&
    forall j :: 0 <= j < |es| && Covers(es[j], dst) ==>
                  es[j].len < es[i].len || (es[j].len == es[i].len && i <= j)
  }

  ghost predicate NoneCovers(es: seq<RtEntry>, dst: Ipv4)
    requires ValidLengths(es)
  {
    forall j :: 0 <= j < |es| ==> !Covers(es[j], dst)
  }

  /** The longest-prefix winner. */
  function BestIndex(es: seq<RtEntry>, dst: Ipv4): (i: int)
    requires ValidLengths(es)
    ensures i == -1 <==> NoneCovers(es, dst)
    ensures i != -1 ==> IsBest(es, dst, i)
  {
    if es == [] then -1 else
    var last := |es| - 1;
    var i := BestIndex(es[..last], dst);
    if Covers(es[last], dst) && (i == -1 || es[last].len > es[i].len) then last else i
  }

  /** Interface `i`, address `a` is the first, in lexicographic order, whose subnet holds `gw`. */
  ghost predicate IsFirstInterface(ifs: seq<seq<IfAddr>>, gw: Ipv4, i: int, a: int) {
    0 <= i < |ifs| && 0 <= a < |ifs[i]| && IsMatch(ifs[i][a].mask, ifs[i][a].local, gw) &&
    NoInterfaceBefore(ifs, gw, i, a)
  }

  ghost predicate NoInterfaceBefore(ifs: seq<seq<IfAddr>>, gw: Ipv4, i: int, a: int) {
    forall i', a' :: 0 <= i' < |ifs| && 0 <= a' < |ifs[i']| && (i' < i || (i' == i && a' < a)) ==>
                       !IsMatch(ifs[i'][a'].mask, ifs[i'][a'].local, gw)
  }

  /** What a lookup can come to. */
  datatype Decision =
    | NoMatch
    | NoInterface(e: RtEntry)
    | Via(route: Route)

  /** The decision, defined by what it must satisfy rather than by how it is searched for. */
  ghost predicate Decides(es: seq<RtEntry>, ifs: seq<seq<IfAddr>>, dst: Ipv4, d: Decision)
    requires ValidLengths(es)
  {
    match d
    case NoMatch => NoneCovers(es, dst)
    case NoInterface(e) =>
      (exists b :: IsBest(es, dst, b) && es[b] == e) && NoInterfaceBefore(ifs, e.gw, |ifs|, 0)
    case Via(r) =>
      r.dst == dst &&
      (exists b :: IsBest(es, dst, b) && es[b].gw == r.gw) &&
      exists a :: IsFirstInterface(ifs, r.gw, r.ifIndex, a) && ifs[r.ifIndex][a].local == r.src
  }

  lemma BestUnique(es: seq<RtEntry>, dst: Ipv4, i: int, j: int)
    requires ValidLengths(es)
    requires IsBest(es, dst, i) && IsBest(es, dst, j)
    ensures i == j
  {
  }

  lemma FirstInterfaceUnique(ifs: seq<seq<IfAddr>>, gw: Ipv4, i: int, a: int, j: int, b: int)
    requires IsFirstInterface(ifs, gw, i, a) && IsFirstInterface(ifs, gw, j, b)
    ensures i == j && a == b
  {
  }

  /** The table, the interfaces and the destination determine the decision. */
  lemma DecisionUnique(es: seq<RtEntry>, ifs: seq<seq<IfAddr>>, dst: Ipv4, d: Decision, f: Decision)
    requires ValidLengths(es)
    requires Decides(es, ifs, dst, d) && Decides(es, ifs, dst, f)
    ensures d == f
  {
    if d != NoMatch && f != NoMatch {
      var b :| IsBest(es, dst, b) && (d.NoInterface? ==> es[b] == d.e) && (d.Via? ==> es[b].gw == d.route.gw);
      var c :| IsBest(es, dst, c) && (f.NoInterface? ==> es[c] == f.e) && (f.Via? ==> es[c].gw == f.route.gw);
      BestUnique(es, dst, b, c);
      if d.Via? {
        var a :| IsFirstInterface(ifs, d.route.gw, d.route.ifIndex, a);
      }
      if f.Via? {
        var a :| IsFirstInterface(ifs, f.route.gw, f.route.ifIndex, a);
      }
      if d.Via? && f.Via? {
        var x :| IsFirstInterface(ifs, d.route.gw, d.route.ifIndex, x) && ifs[d.route.ifIndex][x].local == d.route.src;
        var y :| IsFirstInterface(ifs, f.route.gw, f.route.ifIndex, y) && ifs[f.route.ifIndex][y].local == f.route.src;
        FirstInterfaceUnique(ifs, d.route.gw, d.route.ifIndex, x, f.route.ifIndex, y);
      }
    }
  }

  lemma DecisionExists(es: seq<RtEntry>, ifs: seq<seq<IfAddr>>, dst: Ipv4)
    requires ValidLengths(es)
    ensures exists d :: Decides(es, ifs, dst, d)
  {
    var b := BestIndex(es, dst);
    if b == -1 {
      assert Decides(es, ifs, dst, NoMatch);
    } else {
      var gw := es[b].gw;
      if NoInterfaceBefore(ifs, gw, |ifs|, 0) {
        assert Decides(es, ifs, dst, NoInterface(es[b]));
      } else {
        var i, a := FirstInterfaceExists(ifs, gw);
        assert Decides(es, ifs, dst, Via(Route(dst, gw, ifs[i][a].local, i)));
      }
    }
  }

  lemma {:induction false} FirstInterfaceExists(ifs: seq<seq<IfAddr>>, gw: Ipv4) returns (i: nat, a: nat)
    requires !NoInterfaceBefore(ifs, gw, |ifs|, 0)
    ensures IsFirstInterface(ifs, gw, i, a)
  {
    var x, y :| 0 <= x < |ifs| && 0 <= y < |ifs[x]| && IsMatch(ifs[x][y].mask, ifs[x][y].local, gw);
    i, a := x, y;
    while !NoInterfaceBefore(ifs, gw, i, a)
      invariant i < |ifs| && a < |ifs[i]| && IsMatch(ifs[i][a].mask, ifs[i][a].local, gw)
      decreases i, a
    {
      var x', y' :| 0 <= x' < |ifs| && 0 <= y' < |ifs[x']| && (x' < i || (x' == i && y' < a)) &&
                    IsMatch(ifs[x'][y'].mask, ifs[x'][y'].local, gw);
      i, a := x', y';
    }
  }

  /** The decision. */
  ghost function Decide(es: seq<RtEntry>, ifs: seq<seq<IfAddr>>, dst: Ipv4): (d: Decision)
    requires ValidLengths(es)
    ensures Decides(es, ifs, dst, d)
  {
    DecisionExists(es, ifs, dst);
    var d :| Decides(es, ifs, dst, d);
    d
  }

  /** What RouteInput does with a packet. AssertFails: the inconsistent-entry assertion is reached. */
  datatype InputOutcome =
    | DeliveredLocally
    | Forwarded(route: Route)
    | Refused
    | AssertFails

  /** The answer of RouteOutput: a null route unless an interface holds the gateway. */
  function OutputOf(d: Decision): Option<Route> {
    if d.Via? then Some(d.route) else None
  }

  /** The answer of RouteInput for a packet that is not for this node. */
  function InputOf(d: Decision): InputOutcome {
    match d
    case NoMatch => Refused
    case NoInterface(_) => AssertFails
    case Via(r) => Forwarded(r)
  }

  /** The longest matching prefix leads to `r`, through the first interface whose subnet holds the gateway. */
  ghost predicate Routes(es: seq<RtEntry>, ifs: seq<seq<IfAddr>>, dst: Ipv4, r: Route)
    requires ValidLengths(es)
  {
    r.dst == dst && (exists b :: IsBest(es, dst, b) && es[b].gw == r.gw) &&
    exists a :: IsFirstInterface(ifs, r.gw, r.ifIndex, a) && ifs[r.ifIndex][a].local == r.src
  }

  /** The gateway of the longest matching prefix is on no subnet. */
  ghost predicate Stranded(es: seq<RtEntry>, ifs: seq<seq<IfAddr>>, dst: Ipv4)
    requires ValidLengths(es)
  {
    exists b :: IsBest(es, dst, b) && NoInterfaceBefore(ifs, es[b].gw, |ifs|, 0)
  }

  /**
   * The two lookups agree on every table, interface list and destination: both take exactly the route the longest
   * prefix leads to. RouteInput refuses exactly when nothing covers the destination, and reaches its assertion
   * exactly when the gateway is on no subnet; RouteOutput returns null in both cases and in no other.
   */
  lemma InputOutputAgree(es: seq<RtEntry>, ifs: seq<seq<IfAddr>>, dst: Ipv4, r: Route)
    requires ValidLengths(es)
    ensures var d := Decide(es, ifs, dst);
            (InputOf(d) == Forwarded(r) <==> Routes(es, ifs, dst, r)) &&
            (OutputOf(d) == Some(r) <==> Routes(es, ifs, dst, r)) &&
            (InputOf(d) == Refused <==> NoneCovers(es, dst)) &&
            (InputOf(d) == AssertFails <==> Stranded(es, ifs, dst)) &&
            (OutputOf(d) == None <==> NoneCovers(es, dst) || Stranded(es, ifs, dst))
  {
    var d := Decide(es, ifs, dst);
    if Routes(es, ifs, dst, r) {
      DecisionUnique(es, ifs, dst, d, Via(r));
    }
    if b :| IsBest(es, dst, b) && NoInterfaceBefore(ifs, es[b].gw, |ifs|, 0) {
      DecisionUnique(es, ifs, dst, d, NoInterface(es[b]));
    }
    if d.Via? {
      var b :| IsBest(es, dst, b) && es[b].gw == d.route.gw;
    }
  }

  class HgRoutingProtocol {
    var entries: seq<RtEntry>

    ghost predicate Valid()
      reads this
    {
      KeysDistinct(entries)
    }

    constructor ()
      ensures Valid() && entries == []
    {
      entries := [];
    }

    /** std::find over the entries. */
    method Find(entry: RtEntry) returns (it: nat)
      ensures it == IndexOf(entries, KeyOf(entry))
    {
      it := 0;
      while it < |entries| && !SameEntry(entries[it], entry)
        invariant it <= |entries|
        invariant forall j :: 0 <= j < it ==> KeyOf(entries[j]) != KeyOf(entry)
      {
        it := it + 1;
      }
    }

    method DelRoute(dst: Ipv4, len: Byte, gw: Ipv4)
      modifies this
      ensures entries == Removed(old(entries), Key(dst, len))
      ensures old(Valid()) ==> Valid() && Abs(entries) == Abs(old(entries)) - {Key(dst, len)}
    {
      if Valid() {
        RemovedRefines(entries, Key(dst, len));
      }
      var entry := RtEntry(dst, len, gw);
      var it := Find(entry);
      if it != |entries| {
        entries := entries[..it] + entries[it + 1..];
      }
    }

    method AddRoute(dst: Ipv4, len: Byte, gw: Ipv4)
      modifies this
      ensures entries == Added(old(entries), RtEntry(dst, len, gw))
      ensures old(Valid()) ==> Valid() && Abs(entries) == Abs(old(entries))[Key(dst, len) := gw]
    {
      var entry := RtEntry(dst, len, gw);
      if Valid() {
        AddedRefines(entries, entry);
      }
      var it := Find(entry);
      if it != |entries| {
        entries := entries[..it] + entries[it + 1..];
      }
      entries := entries + [entry];
    }

    method RouteOutput(dst: Ipv4, ifs: seq<seq<IfAddr>>) returns (route: Option<Route>)
      requires ValidLengths(entries)
      ensures route == OutputOf(Decide(entries, ifs, dst))
    {
      var finalRt, bestLen: int := RtEntry(dst, 0, dst), -1;
      ghost var b := -1;
      var i := 0;
      while i < |entries|
        invariant i <= |entries|
        invariant bestLen == -1 ==> NoneCovers(entries[..i], dst)
        invariant bestLen != -1 ==> IsBest(entries[..i], dst, b) && finalRt == entries[b] && bestLen == finalRt.len
      {
        var rt := entries[i];
        if IsMatch(PrefixMask(rt.len), rt.dst, dst) {
          if rt.len > bestLen {
            bestLen, finalRt, b := rt.len, rt, i;
          }
        }
        i := i + 1;
      }
      assert entries[..i] == entries;
      if bestLen >= 0 {
        var ifIdx := 0;
        while ifIdx < |ifs|
          invariant ifIdx <= |ifs|
          invariant NoInterfaceBefore(ifs, finalRt.gw, ifIdx, 0)
        {
          var addrIdx := 0;
          while addrIdx < |ifs[ifIdx]|
            invariant addrIdx <= |ifs[ifIdx]|
            invariant NoInterfaceBefore(ifs, finalRt.gw, ifIdx, addrIdx)
          {
            var ifAddr := ifs[ifIdx][addrIdx];
            if IsMatch(ifAddr.mask, ifAddr.local, finalRt.gw) {
              route := Some(Route(dst, finalRt.gw, ifAddr.local, ifIdx));
              assert IsFirstInterface(ifs, finalRt.gw, ifIdx, addrIdx);
              DecisionUnique(entries, ifs, dst, Decide(entries, ifs, dst), Via(route.value));
              return;
            }
            addrIdx := addrIdx + 1;
          }
          ifIdx := ifIdx + 1;
        }
        DecisionUnique(entries, ifs, dst, Decide(entries, ifs, dst), NoInterface(finalRt));
        return None;
      }
      DecisionUnique(entries, ifs, dst, Decide(entries, ifs, dst), NoMatch);
      route := None;
    }

    /**
     * `local`: ns-3 says the packet is for this node; `lcbNull`: no local delivery callback.
     * The search is written out a second time, as in the source.
     */
    method RouteInput(dst: Ipv4, ifs: seq<seq<IfAddr>>, local: bool, lcbNull: bool) returns (outcome: InputOutcome)
      requires ValidLengths(entries)
      ensures local ==> outcome == if lcbNull then Refused else DeliveredLocally
      ensures !local ==> outcome == InputOf(Decide(entries, ifs, dst))
    {
      if local {
        if !lcbNull {
          return DeliveredLocally;
        } else {
          return Refused;
        }
      }
      var finalRt, bestLen: int := RtEntry(dst, 0, dst), -1;
      ghost var b := -1;
      for i := 0 to |entries|
        invariant bestLen == -1 ==> NoneCovers(entries[..i], dst)
        invariant bestLen != -1 ==> IsBest(entries[..i], dst, b) && finalRt == entries[b] && bestLen == finalRt.len
      {
        var rt := entries[i];
        if IsMatch(PrefixMask(rt.len), rt.dst, dst) {
          if rt.len > bestLen {
            bestLen, finalRt, b := rt.len, rt, i;
          }
        }
      }
      assert entries[..|entries|] == entries;
      if bestLen >= 0 {
        for ifIdx := 0 to |ifs|
          invariant NoInterfaceBefore(ifs, finalRt.gw, ifIdx, 0)
        {
          for addrIdx := 0 to |ifs[ifIdx]|
            invariant NoInterfaceBefore(ifs, finalRt.gw, ifIdx, addrIdx)
          {
            var ifAddr := ifs[ifIdx][addrIdx];
            if IsMatch(ifAddr.mask, ifAddr.local, finalRt.gw) {
              var route := Route(dst, finalRt.gw, ifAddr.local, ifIdx);
              assert IsFirstInterface(ifs, finalRt.gw, ifIdx, addrIdx);
              DecisionUnique(entries, ifs, dst, Decide(entries, ifs, dst), Via(route));
              return Forwarded(route);
            }
          }
        }
        DecisionUnique(entries, ifs, dst, Decide(entries, ifs, dst), NoInterface(finalRt));
        return AssertFails;
      } else {
        DecisionUnique(entries, ifs, dst, Decide(entries, ifs, dst), NoMatch);
        return Refused;
      }
    }
  }
}
