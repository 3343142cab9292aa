/** The forwarding decision as a function of the history of route additions and deletions. */
module RoutingHistory {
  import opened Base
  import opened Routing

  datatype RouteOp =
    | AddOp(dst: Ipv4, len: Byte, gw: Ipv4)
    | DelOp(dst: Ipv4, len: Byte, gw: Ipv4)

  function OpKey(op: RouteOp): Key {
    Key(op.dst, op.len)
  }

  function Apply(es: seq<RtEntry>, op: RouteOp): seq<RtEntry> {
    match op
    case AddOp(dst, len, gw) => Added(es, RtEntry(dst, len, gw))
    case DelOp(dst, len, gw) => Removed(es, Key(dst, len))
  }

  function ApplyAll(es: seq<RtEntry>, ops: seq<RouteOp>): seq<RtEntry>
    decreases ops
  {
    if ops == [] then es else ApplyAll(Apply(es, ops[0]), ops[1..])
  }

  lemma {:induction false} ApplyAllConcat(es: seq<RtEntry>, a: seq<RouteOp>, b: seq<RouteOp>)
    ensures ApplyAll(es, a + b) == ApplyAll(ApplyAll(es, a), b)
    decreases a
  {
    if a == [] {
      assert a + b == b;
    } else {
      assert (a + b)[1..] == a[1..] + b;
      ApplyAllConcat(Apply(es, a[0]), a[1..], b);
    }
  }

  /** The net effect of a history on the abstract map. */
  ghost function NetEffect(m: map<Key, Ipv4>, ops: seq<RouteOp>): map<Key, Ipv4>
    decreases ops
  {
    if ops == [] then m else
    NetEffect(if ops[0].AddOp? then m[OpKey(ops[0]) := ops[0].gw] else m - {OpKey(ops[0])}, ops[1..])
  }

  /** The vector refines the map under every history, and its keys stay distinct. */
  lemma {:induction false} HistoryRefinesMap(es: seq<RtEntry>, ops: seq<RouteOp>)
    requires KeysDistinct(es)
    ensures KeysDistinct(ApplyAll(es, ops))
    ensures Abs(ApplyAll(es, ops)) == NetEffect(Abs(es), ops)
    decreases ops
  {
    if ops != [] {
      if ops[0].AddOp? {
        AddedRefines(es, RtEntry(ops[0].dst, ops[0].len, ops[0].gw));
      } else {
        RemovedRefines(es, OpKey(ops[0]));
      }
      HistoryRefinesMap(Apply(es, ops[0]), ops[1..]);
    }
  }

  // ---- Stamps: when was a key last added? ------------------------------------------------

  /** Index of the last operation on `k`, or -1. */
  function LastOn(h: seq<RouteOp>, k: Key): (i: int)
    ensures -1 <= i < |h|
    ensures i >= 0 ==> OpKey(h[i]) == k
    ensures forall j :: i < j < |h| ==> OpKey(h[j]) != k
  {
    if h == [] then -1
    else if OpKey(h[|h| - 1]) == k then |h| - 1
    else LastOn(h[..|h| - 1], k)
  }

  /** The key's last operation added it. */
  predicate Live(h: seq<RouteOp>, k: Key) {
    LastOn(h, k) >= 0 && h[LastOn(h, k)].AddOp?
  }

  lemma LastOnSnoc(h: seq<RouteOp>, op: RouteOp, k: Key)
    ensures LastOn(h + [op], k) == if OpKey(op) == k then |h| else LastOn(h, k)
    ensures OpKey(op) != k ==> Live(h + [op], k) == Live(h, k)
  {
    assert (h + [op])[..|h|] == h;
  }

  /** Entries are the live keys with their latest gateways, in the order of their latest addition. */
  ghost predicate Chronological(h: seq<RouteOp>, es: seq<RtEntry>) {
    (forall i :: 0 <= i < |es| ==> Live(h, KeyOf(es[i])) && es[i].gw == h[LastOn(h, KeyOf(es[i]))].gw) &&
    (forall i, j :: 0 <= i < j < |es| ==> LastOn(h, KeyOf(es[i])) < LastOn(h, KeyOf(es[j]))) &&
    (forall k :: Live(h, k) ==> IndexOf(es, k) < |es|)
  }

  /** What is left after a removal, in terms of the history before it. */
  ghost predicate StillChronological(h: seq<RouteOp>, rs: seq<RtEntry>, gone: Key) {
    (forall i :: 0 <= i < |rs| ==>
     KeyOf(rs[i]) != gone && Live(h, KeyOf(rs[i])) && rs[i].gw == h[LastOn(h, KeyOf(rs[i]))].gw) &&
    (forall i, j :: 0 <= i < j < |rs| ==> LastOn(h, KeyOf(rs[i])) < LastOn(h, KeyOf(rs[j]))) &&
    (forall k :: Live(h, k) && k != gone ==> IndexOf(rs, k) < |rs|)
  }

  lemma LiveStays(h: seq<RouteOp>, es: seq<RtEntry>, gone: Key, k: Key)
    requires Chronological(h, es) && Live(h, k) && k != gone
    ensures IndexOf(Removed(es, gone), k) < |Removed(es, gone)|
  {
    KeptAt(es, gone, IndexOf(es, k));
  }

  lemma RemovedStaysChronological(h: seq<RouteOp>, es: seq<RtEntry>, gone: Key)
    requires Chronological(h, es)
    ensures StillChronological(h, Removed(es, gone), gone)
  {
    RemovedStaysOrdered(h, es, gone);
    forall k | Live(h, k) && k != gone ensures IndexOf(Removed(es, gone), k) < |Removed(es, gone)| {
      LiveStays(h, es, gone, k);
    }
  }

  lemma RemovedStaysOrdered(h: seq<RouteOp>, es: seq<RtEntry>, gone: Key)
    requires Chronological(h, es)
    ensures var rs := Removed(es, gone);
            (forall i :: 0 <= i < |rs| ==>
             KeyOf(rs[i]) != gone && Live(h, KeyOf(rs[i])) && rs[i].gw == h[LastOn(h, KeyOf(rs[i]))].gw) &&
            (forall i, j :: 0 <= i < j < |rs| ==> LastOn(h, KeyOf(rs[i])) < LastOn(h, KeyOf(rs[j])))
  {
    ChronologicalDistinct(h, es);
    RemovedDistinct(es, gone);
    RemovedShape(es, gone);
  }

  lemma ChronologicalDistinct(h: seq<RouteOp>, es: seq<RtEntry>)
    requires Chronological(h, es)
    ensures KeysDistinct(es)
  {
    forall i, j | 0 <= i < j < |es| ensures KeyOf(es[i]) != KeyOf(es[j]) {
      assert LastOn(h, KeyOf(es[i])) < LastOn(h, KeyOf(es[j]));
    }
  }

  lemma ApplyStaysChronological(h: seq<RouteOp>, es: seq<RtEntry>, op: RouteOp)
    requires Chronological(h, es)
    ensures Chronological(h + [op], Apply(es, op))
  {
    RemovedStaysChronological(h, es, OpKey(op));
    SnocStaysChronological(h, Removed(es, OpKey(op)), op);
  }

  lemma SnocStaysChronological(h: seq<RouteOp>, rs: seq<RtEntry>, op: RouteOp)
    requires StillChronological(h, rs, OpKey(op))
    ensures Chronological(h + [op], if op.AddOp? then rs + [RtEntry(op.dst, op.len, op.gw)] else rs)
  {
    var g, ns := h + [op], if op.AddOp? then rs + [RtEntry(op.dst, op.len, op.gw)] else rs;
    assert g[|h|] == op;
    forall i | 0 <= i < |ns|
      ensures Live(g, KeyOf(ns[i])) && ns[i].gw == g[LastOn(g, KeyOf(ns[i]))].gw
      ensures i < |rs| ==> ns[i] == rs[i] && LastOn(g, KeyOf(ns[i])) == LastOn(h, KeyOf(ns[i]))
      ensures i == |rs| ==> LastOn(g, KeyOf(ns[i])) == |h|
    {
      LastOnSnoc(h, op, KeyOf(ns[i]));
    }
    forall k | Live(g, k) ensures IndexOf(ns, k) < |ns| {
      LastOnSnoc(h, op, k);
      if k == OpKey(op) {
        assert KeyOf(ns[|rs|]) == k;
      } else {
        assert ns[IndexOf(rs, k)] == rs[IndexOf(rs, k)];
      }
    }
  }

  lemma {:induction false} HistoryIsChronological(h: seq<RouteOp>)
    ensures Chronological(h, ApplyAll([], h))
  {
    if h != [] {
      var front, op := h[..|h| - 1], h[|h| - 1];
      HistoryIsChronological(front);
      assert h == front + [op];
      ApplyAllConcat([], front, [op]);
      assert ApplyAll(ApplyAll([], front), [op]) == Apply(ApplyAll([], front), op);
      ApplyStaysChronological(front, ApplyAll([], front), op);
    }
  }

  /** Key `k` wins for `dst` by history: live, covering, longest, least recently added. */
  ghost predicate WinsByHistory(h: seq<RouteOp>, dst: Ipv4, k: Key) {
    Live(h, k) && k.len <= 32 && IsMatch(PrefixMask(k.len), k.dst, dst) &&
    forall q :: Live(h, q) && q.len <= 32 && IsMatch(PrefixMask(q.len), q.dst, dst) ==>
                  q.len < k.len || (q.len == k.len && LastOn(h, k) <= LastOn(h, q))
  }

  /** The decision as a function of the history alone. */
  lemma WinnerByHistory(h: seq<RouteOp>, dst: Ipv4, k: Key)
    requires ValidLengths(ApplyAll([], h))
    ensures var es := ApplyAll([], h);
            WinsByHistory(h, dst, k) <==>
            IsBest(es, dst, IndexOf(es, k))
  {
    var es := ApplyAll([], h);
    HistoryIsChronological(h);
    var i := IndexOf(es, k);
    if WinsByHistory(h, dst, k) {
      forall j | 0 <= j < |es| && Covers(es[j], dst)
        ensures es[j].len < es[i].len || (es[j].len == es[i].len && i <= j)
      {
        assert Live(h, KeyOf(es[j]));
      }
    }
    if IsBest(es, dst, i) {
      forall q | Live(h, q) && q.len <= 32 && IsMatch(PrefixMask(q.len), q.dst, dst)
        ensures q.len < k.len || (q.len == k.len && LastOn(h, k) <= LastOn(h, q))
      {
        var j := IndexOf(es, q);
        assert Covers(es[j], dst);
      }
    }
  }

  // ---- Order independence ----------------------------------------------------------------

  /** At most one key among the longest covering ones. */
  ghost predicate UniqueLongest(es: seq<RtEntry>, dst: Ipv4)
    requires ValidLengths(es)
  {
    forall i, j ::
      0 <= i < |es| && 0 <= j < |es| && Covers(es[j], dst) && es[i].len == es[j].len && IsBest(es, dst, i) ==> i == j
  }

  /** `fs` is another order in which the same abstract table can be stored. */
  ghost predicate SameTable(es: seq<RtEntry>, fs: seq<RtEntry>) {
    KeysDistinct(es) && KeysDistinct(fs) && Abs(es) == Abs(fs)
  }

  ghost function Best(es: seq<RtEntry>, dst: Ipv4): Option<RtEntry>
    requires ValidLengths(es)
  {
    var b := BestIndex(es, dst);
    if b == -1 then None else Some(es[b])
  }

  lemma SameTableSameEntries(es: seq<RtEntry>, fs: seq<RtEntry>, i: nat) returns (j: nat)
    requires SameTable(es, fs) && i < |es|
    ensures j < |fs| && fs[j] == es[i]
  {
    AbsAt(es, i);
    j := IndexOf(fs, KeyOf(es[i]));
    AbsFrom(fs, KeyOf(es[i]));
  }

  lemma SameTableValid(es: seq<RtEntry>, fs: seq<RtEntry>)
    requires SameTable(es, fs) && ValidLengths(es)
    ensures ValidLengths(fs)
  {
    forall i | 0 <= i < |fs| ensures fs[i].len <= 32 {
      var j := SameTableSameEntries(fs, es, i);
    }
  }

  lemma UniqueMakesOrderIrrelevant(es: seq<RtEntry>, fs: seq<RtEntry>, dst: Ipv4)
    requires ValidLengths(es) && ValidLengths(fs)
    requires SameTable(es, fs) && UniqueLongest(es, dst)
    ensures Best(es, dst) == Best(fs, dst)
  {
    var b, c := BestIndex(es, dst), BestIndex(fs, dst);
    if b != -1 {
      var j := SameTableSameEntries(es, fs, b);
      assert Covers(fs[j], dst);
    }
    if c != -1 {
      var i := SameTableSameEntries(fs, es, c);
      assert Covers(es[i], dst);
      if b != -1 {
        var j := SameTableSameEntries(es, fs, b);
        assert es[i].len == es[b].len;
      }
    }
  }

  /** Moving entry `i` to the front stores the same table. */
  lemma FrontedSameTable(es: seq<RtEntry>, i: nat)
    requires KeysDistinct(es) && i < |es|
    ensures SameTable(es, [es[i]] + es[..i] + es[i + 1..])
  {
    var fs := [es[i]] + es[..i] + es[i + 1..];
    FrontedShape(es, i, fs);
    forall k | k in Abs(es) ensures k in Abs(fs) && Abs(fs)[k] == Abs(es)[k] {
      AbsFrom(es, k);
      FrontedKeeps(es, i, fs, IndexOf(es, k));
    }
    forall k | k in Abs(fs) ensures k in Abs(es) {
      AbsFrom(fs, k);
      FrontedFrom(es, i, fs, IndexOf(fs, k));
    }
  }

  lemma FrontedShape(es: seq<RtEntry>, i: nat, fs: seq<RtEntry>)
    requires KeysDistinct(es) && i < |es| && fs == [es[i]] + es[..i] + es[i + 1..]
    ensures KeysDistinct(fs)
  {
    assert forall j :: 0 <= j < |fs| ==> fs[j] == es[if j == 0 then i else if j <= i then j - 1 else j];
  }

  lemma FrontedKeeps(es: seq<RtEntry>, i: nat, fs: seq<RtEntry>, j: nat)
    requires i < |es| && fs == [es[i]] + es[..i] + es[i + 1..] && j < |es| && KeysDistinct(fs)
    ensures KeyOf(es[j]) in Abs(fs) && Abs(fs)[KeyOf(es[j])] == es[j].gw
  {
    var p := if j == i then 0 else if j < i then j + 1 else j;
    assert fs[p] == es[j];
    AbsAt(fs, p);
  }

  lemma FrontedFrom(es: seq<RtEntry>, i: nat, fs: seq<RtEntry>, j: nat)
    requires i < |es| && fs == [es[i]] + es[..i] + es[i + 1..] && j < |fs| && KeysDistinct(es)
    ensures KeyOf(fs[j]) in Abs(es)
  {
    var p := if j == 0 then i else if j <= i then j - 1 else j;
    assert es[p] == fs[j];
    AbsAt(es, p);
  }

  lemma ClashShowsOrder(es: seq<RtEntry>, dst: Ipv4, i: nat, j: nat) returns (fs: seq<RtEntry>)
    requires KeysDistinct(es) && ValidLengths(es)
    requires IsBest(es, dst, i) && j < |es| && j != i && Covers(es[j], dst) && es[i].len == es[j].len
    ensures SameTable(es, fs) && ValidLengths(fs) && Best(fs, dst) != Best(es, dst)
  {
    fs := [es[j]] + es[..j] + es[j + 1..];
    FrontedSameTable(es, j);
    SameTableValid(es, fs);
    BestUnique(es, dst, i, BestIndex(es, dst));
    forall x | 0 <= x < |fs| && Covers(fs[x], dst)
      ensures fs[x].len < fs[0].len || (fs[x].len == fs[0].len && 0 <= x)
    {
      var y := if x == 0 then j else if x <= j then x - 1 else x;
      assert fs[x] == es[y];
    }
    assert IsBest(fs, dst, 0);
    BestUnique(fs, dst, 0, BestIndex(fs, dst));
    assert KeyOf(es[i]) != KeyOf(es[j]);
  }

  /** The decision for `dst` depends on the abstract table alone exactly when the longest covering key is unique. */
  lemma OrderIrrelevantIff(es: seq<RtEntry>, dst: Ipv4)
    requires KeysDistinct(es) && ValidLengths(es)
    ensures UniqueLongest(es, dst) <==>
            forall fs :: SameTable(es, fs) && ValidLengths(fs) ==> Best(fs, dst) == Best(es, dst)
  {
    if UniqueLongest(es, dst) {
      forall fs | SameTable(es, fs) && ValidLengths(fs) ensures Best(fs, dst) == Best(es, dst) {
        UniqueMakesOrderIrrelevant(es, fs, dst);
      }
    } else {
      var i, j :|
        0 <= i < |es| && 0 <= j < |es| && Covers(es[j], dst) && es[i].len == es[j].len && IsBest(es, dst, i) && i != j;
      var fs := ClashShowsOrder(es, dst, i, j);
    }
  }

  /** No bit is set beyond the prefix. */
  predicate Canonical(e: RtEntry)
    requires e.len <= 32
  {
    forall i :: e.len <= i < 32 ==> !e.dst[i]
  }

  /** Canonical destinations: at most one covering key per length, so order never matters. */
  lemma CanonicalIsUnique(es: seq<RtEntry>, dst: Ipv4)
    requires KeysDistinct(es) && ValidLengths(es)
    requires forall i :: 0 <= i < |es| ==> Canonical(es[i])
    ensures forall i, j ::
              0 <= i < |es| && 0 <= j < |es| && Covers(es[i], dst) && Covers(es[j], dst) && es[i].len == es[j].len ==>
                i == j
    ensures UniqueLongest(es, dst)
  {
    forall i, j | 0 <= i < |es| && 0 <= j < |es| && Covers(es[i], dst) && Covers(es[j], dst) && es[i].len == es[j].len
      ensures i == j
    {
      var m := PrefixMask(es[i].len);
      assert forall x :: 0 <= x < 32 && m[x] ==> es[i].dst[x] == dst[x] == es[j].dst[x];
      assert es[i].dst == es[j].dst;
      assert KeyOf(es[i]) == KeyOf(es[j]);
    }
  }

  /** Without canonical destinations the order of additions decides: two histories, one abstract table, two gateways. */
  lemma OrderMatters(a: Ipv4, b: Ipv4, g: Ipv4, f: Ipv4)
    requires a[..31] == b[..31] && a != b && g != f
    ensures var h := [AddOp(a, 31, g), AddOp(b, 31, f)];
            var l := [AddOp(b, 31, f), AddOp(a, 31, g)];
            SameTable(ApplyAll([], h), ApplyAll([], l)) &&
            ApplyAll([], h) == [RtEntry(a, 31, g), RtEntry(b, 31, f)] &&
            ApplyAll([], l) == [RtEntry(b, 31, f), RtEntry(a, 31, g)] &&
            Best(ApplyAll([], h), a) == Some(RtEntry(a, 31, g)) &&
            Best(ApplyAll([], l), a) == Some(RtEntry(b, 31, f))
  {
    var x, y := RtEntry(a, 31, g), RtEntry(b, 31, f);
    ApplyTwo(x, y);
    ApplyTwo(y, x);
    var es, fs := [x, y], [y, x];
    FrontedSameTable(es, 1);
    assert [es[1]] + es[..1] + es[2..] == fs;
    CoversMeaning(x, a);
    CoversMeaning(y, a);
    assert IsBest(es, a, 0) && IsBest(fs, a, 0);
    BestUnique(es, a, 0, BestIndex(es, a));
    BestUnique(fs, a, 0, BestIndex(fs, a));
  }

  lemma ApplyTwo(x: RtEntry, y: RtEntry)
    requires KeyOf(x) != KeyOf(y)
    ensures ApplyAll([], [AddOp(x.dst, x.len, x.gw), AddOp(y.dst, y.len, y.gw)]) == [x, y]
  {
    var p, q := AddOp(x.dst, x.len, x.gw), AddOp(y.dst, y.len, y.gw);
    assert [p, q][1..] == [q] && [q][1..] == [];
    assert Apply([], p) == [x];
    assert Apply([x], q) == [x, y];
    assert ApplyAll([x], [q]) == ApplyAll(Apply([x], q), []);
  }
}
