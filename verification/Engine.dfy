/**
 * The engine as it runs: one object whose tables, callback slots and event queue every handler and every
 * closure updates in place. Each is proved to do to the state what module Sim says.
 */
module Engine {
  import opened Base
  import opened Routing
  import opened NetlinkWire
  import opened Sim
  import opened SimInv
  import opened SimCallbacks
  import opened SimSelect
  import opened SimRun
  import NL = Netlink
  import RH = RoutingHistory
  import PD = PollDetector

  // ---- select, socket by socket --------------------------------------------------------------

  predicate SocketReady(n: Net, rset: Option<set<Fd>>, wset: Option<set<Fd>>, f: Fd) {
    (f in Given(wset) && Writable(n, f)) || (f in Given(rset) && ReadableSocket(n, f))
  }

  function ReadyRSockets(n: Net, rset: Option<set<Fd>>): set<Fd> {
    set f | f in Given(rset) && ReadableSocket(n, f)
  }

  /** A socket that is not ready with the closures of operation `op`. */
  function Slots(n: Net, f: Fd, op: OpId, reading: bool, writing: bool): Sock
    requires Known(n, f)
  {
    var k := n.socks[n.fds.sockets[f]];
    k.(send := if writing then SelectSend(op, f) else k.send,
       accept := if reading && f in n.fds.listening then SelectAccept(op, f) else k.accept,
       recv := if reading && f !in n.fds.listening then SelectRecv(op, f) else k.recv)
  }

  /** The sockets of the descriptors in `done` have got their closures, if the select may block. */
  ghost predicate Placed(n: Net, socks: seq<Sock>, done: set<Fd>, op: OpId, rset: Option<set<Fd>>,
                         wset: Option<set<Fd>>, blocking: bool)
    requires FdOk(n)
  {
    |socks| == |n.socks| &&
    (forall f :: f in done && f in n.fds.sockets ==>
                   socks[n.fds.sockets[f]] ==
                   if blocking then Slots(n, f, op, f in Given(rset), f in Given(wset))
                   else n.socks[n.fds.sockets[f]]) &&
    (forall i: nat :: i < |socks| && (forall f :: IsFdOf(n.fds.sockets, f, i) ==> f !in done) ==>
                        socks[i] == n.socks[i])
  }

  /** The ready descriptors among those in `done` have been collected and counted. */
  ghost predicate Collected(n: Net, newR: set<Fd>, newW: set<Fd>, ctx: nat, done: set<Fd>, rset: Option<set<Fd>>,
                            wset: Option<set<Fd>>)
  {
    ctx == |newR| + |newW| &&
    (forall f :: f in newR <==> f in done && f in Given(rset) && ReadableSocket(n, f)) &&
    (forall f :: f in newW <==> f in done && f in Given(wset) && Writable(n, f))
  }

  lemma CollectedMore(n: Net, newR: set<Fd>, newW: set<Fd>, ctx: nat, done: set<Fd>, fd: Fd, rset: Option<set<Fd>>,
                      wset: Option<set<Fd>>)
    requires Collected(n, newR, newW, ctx, done, rset, wset) && fd !in done
    ensures var w, r := fd in Given(wset) && Writable(n, fd), fd in Given(rset) && ReadableSocket(n, fd);
            Collected(n, if r then newR + {fd} else newR, if w then newW + {fd} else newW,
                      ctx + (if w then 1 else 0) + (if r then 1 else 0), done + {fd}, rset, wset)
  {
  }

  lemma AllCollected(n: Net, newR: set<Fd>, newW: set<Fd>, ctx: nat, rset: Option<set<Fd>>, wset: Option<set<Fd>>)
    requires Collected(n, newR, newW, ctx, n.fds.sockets.Keys, rset, wset)
    ensures newR == ReadyRSockets(n, rset) && newW == ReadyW(n, wset) && ctx == |newR| + |newW|
  {
    assert forall f :: f in newR <==> f in ReadyRSockets(n, rset);
    assert forall f :: f in newW <==> f in ReadyW(n, wset);
  }

  lemma NotYetPlaced(n: Net, socks: seq<Sock>, done: set<Fd>, fd: Fd, op: OpId, rset: Option<set<Fd>>,
                     wset: Option<set<Fd>>, blocking: bool)
    requires FdOk(n) && Placed(n, socks, done, op, rset, wset, blocking) && fd in n.fds.sockets && fd !in done
    ensures socks[n.fds.sockets[fd]] == n.socks[n.fds.sockets[fd]]
  {
    assert forall f :: IsFdOf(n.fds.sockets, f, n.fds.sockets[fd]) ==> f == fd;
  }

  lemma PlacedMore(n: Net, socks: seq<Sock>, k: Sock, done: set<Fd>, fd: Fd, op: OpId, rset: Option<set<Fd>>,
                   wset: Option<set<Fd>>, blocking: bool)
    requires FdOk(n) && Placed(n, socks, done, op, rset, wset, blocking) && fd in n.fds.sockets && fd !in done
    requires k == if blocking then Slots(n, fd, op, fd in Given(rset), fd in Given(wset))
                  else n.socks[n.fds.sockets[fd]]
    ensures Placed(n, socks[n.fds.sockets[fd] := k], done + {fd}, op, rset, wset, blocking)
  {
    var after := socks[n.fds.sockets[fd] := k];
    assert IsFdOf(n.fds.sockets, fd, n.fds.sockets[fd]);
    forall i: nat | i < |after| && (forall f :: IsFdOf(n.fds.sockets, f, i) ==> f !in done + {fd})
      ensures after[i] == n.socks[i]
    {
      assert i != n.fds.sockets[fd];
      assert forall f :: IsFdOf(n.fds.sockets, f, i) ==> f !in done;
    }
  }

  lemma AllPlaced(n: Net, socks: seq<Sock>, op: OpId, rset: Option<set<Fd>>, wset: Option<set<Fd>>, blocking: bool)
    requires FdOk(n) && Placed(n, socks, n.fds.sockets.Keys, op, rset, wset, blocking)
    ensures socks == if blocking then WatchedSocks(n, op, rset, wset) else n.socks
  {
    var wr, ww := WatchR(n.fds, rset), WatchW(n.fds, wset);
    forall i: nat | i < |socks| ensures socks[i] == if blocking then WatchedSock(n, i, op, wr, ww) else n.socks[i] {
      if f :| IsFdOf(n.fds.sockets, f, i) {
        WatchedSockOf(n, f, op, wr, ww);
      }
    }
  }

  ghost predicate PassTwoAt(n: Net, socks: seq<Sock>, newR: set<Fd>, newW: set<Fd>, ctx: nat, doesBlock: bool,
                            done: set<Fd>, op: OpId, rset: Option<set<Fd>>, wset: Option<set<Fd>>,
                            eset: Option<set<Fd>>, blocking: bool)
    requires FdOk(n)
  {
    done !! Given(eset) &&
    Collected(n, newR, newW, ctx, done, rset, wset) && Placed(n, socks, done, op, rset, wset, blocking) &&
    (doesBlock <==> blocking && exists f :: f in done && (f in Given(rset) || f in Given(wset)))
  }

  /** Where pass 2 stands: the sockets of the descriptors in `rest` are still to come. */
  ghost predicate PassTwo(n: Net, socks: seq<Sock>, newR: set<Fd>, newW: set<Fd>, ctx: nat, doesBlock: bool,
                          rest: set<Fd>, op: OpId, rset: Option<set<Fd>>, wset: Option<set<Fd>>,
                          eset: Option<set<Fd>>, blocking: bool)
    requires FdOk(n)
  {
    rest <= n.fds.sockets.Keys &&
    PassTwoAt(n, socks, newR, newW, ctx, doesBlock, n.fds.sockets.Keys - rest, op, rset, wset, eset, blocking)
  }

  lemma PassTwoStep(n: Net, m: Net, newR: set<Fd>, newW: set<Fd>, ctx: nat, doesBlock: bool, done: set<Fd>, fd: Fd,
                    op: OpId, rset: Option<set<Fd>>, wset: Option<set<Fd>>, eset: Option<set<Fd>>, blocking: bool,
                    k: Sock, r: bool, w: bool, b: bool)
    requires FdOk(n) && PassTwoAt(n, m.socks, newR, newW, ctx, doesBlock, done, op, rset, wset, eset, blocking)
    requires m.fds == n.fds && fd in n.fds.sockets && fd !in done && fd !in Given(eset)
    requires m.socks[n.fds.sockets[fd]] == n.socks[n.fds.sockets[fd]]
    requires blocking ==> !SocketReady(n, rset, wset, fd)
    requires r <==> fd in Given(rset) && ReadableSocket(m, fd)
    requires w <==> fd in Given(wset) && Writable(m, fd)
    requires b <==> blocking && (fd in Given(wset) || fd in Given(rset))
    requires k == if blocking then Slots(m, fd, op, fd in Given(rset), fd in Given(wset))
                  else m.socks[m.fds.sockets[fd]]
    ensures PassTwoAt(n, m.socks[n.fds.sockets[fd] := k], if r then newR + {fd} else newR,
                      if w then newW + {fd} else newW,
                      ctx + (if w then 1 else 0) + (if r then 1 else 0), doesBlock || b, done + {fd},
                      op, rset, wset, eset, blocking)
  {
    CollectedMore(n, newR, newW, ctx, done, fd, rset, wset);
    PlacedMore(n, m.socks, k, done, fd, op, rset, wset, blocking);
  }

  lemma PassTwoMore(n: Net, m: Net, newR: set<Fd>, newW: set<Fd>, ctx: nat, doesBlock: bool, rest: set<Fd>, fd: Fd,
                    op: OpId, rset: Option<set<Fd>>, wset: Option<set<Fd>>, eset: Option<set<Fd>>, blocking: bool,
                    k: Sock, r: bool, w: bool, b: bool)
    requires FdOk(n) && PassTwo(n, m.socks, newR, newW, ctx, doesBlock, rest, op, rset, wset, eset, blocking)
    requires m.fds == n.fds && fd in rest && fd !in Given(eset) &&
             m.socks[n.fds.sockets[fd]] == n.socks[n.fds.sockets[fd]]
    requires blocking ==> !SocketReady(n, rset, wset, fd)
    requires r <==> fd in Given(rset) && ReadableSocket(m, fd)
    requires w <==> fd in Given(wset) && Writable(m, fd)
    requires b <==> blocking && (fd in Given(wset) || fd in Given(rset))
    requires k == if blocking then Slots(m, fd, op, fd in Given(rset), fd in Given(wset))
                  else m.socks[m.fds.sockets[fd]]
    ensures PassTwo(n, m.socks[n.fds.sockets[fd] := k], if r then newR + {fd} else newR,
                    if w then newW + {fd} else newW,
                    ctx + (if w then 1 else 0) + (if r then 1 else 0), doesBlock || b, rest - {fd},
                    op, rset, wset, eset, blocking)
  {
    var done := n.fds.sockets.Keys - rest;
    PassTwoStep(n, m, newR, newW, ctx, doesBlock, done, fd, op, rset, wset, eset, blocking, k, r, w, b);
    assert n.fds.sockets.Keys - (rest - {fd}) == done + {fd};
  }

  lemma PassTwoDone(n: Net, socks: seq<Sock>, newR: set<Fd>, newW: set<Fd>, ctx: nat, doesBlock: bool,
                    op: OpId, rset: Option<set<Fd>>, wset: Option<set<Fd>>, eset: Option<set<Fd>>, blocking: bool)
    requires FdOk(n) && PassTwo(n, socks, newR, newW, ctx, doesBlock, {}, op, rset, wset, eset, blocking)
    ensures newR == ReadyRSockets(n, rset) && newW == ReadyW(n, wset) && ctx == |newR| + |newW|
    ensures socks == if blocking then WatchedSocks(n, op, rset, wset) else n.socks
    ensures doesBlock <==> blocking && exists f :: f in n.fds.sockets && (f in Given(rset) || f in Given(wset))
    ensures forall f :: f in Given(eset) ==> f !in n.fds.sockets
  {
    assert n.fds.sockets.Keys - {} == n.fds.sockets.Keys;
    AllPlaced(n, socks, op, rset, wset, blocking);
    AllCollected(n, newR, newW, ctx, rset, wset);
  }

  ghost function WatchedSocks(n: Net, op: OpId, rset: Option<set<Fd>>, wset: Option<set<Fd>>): seq<Sock> {
    WatchedNet(n, op, WatchR(n.fds, rset), WatchW(n.fds, wset)).socks
  }

  /** An exception descriptor that pass 1 reaches among the netlink sockets. */
  ghost predicate NetlinkExcepted(n: Net, rset: Option<set<Fd>>, eset: Option<set<Fd>>) {
    exists e :: e in Given(eset) && e in n.fds.netlinks && forall r :: r in Given(rset) && r <= e ==> !ReadableNl(n, r)
  }

  // ---- select, netlink socket by netlink socket -------------------------------------------------

  function ReadyRNetlinks(n: Net, rset: Option<set<Fd>>): set<Fd> {
    set f | f in Given(rset) && ReadableNl(n, f)
  }

  ghost function WatchedNls(n: Net, op: OpId, rset: Option<set<Fd>>): seq<Nl> {
    WatchedNet(n, op, WatchR(n.fds, rset), {}).nls
  }

  /** The netlink sockets of the descriptors in `done` have been looked at. */
  ghost predicate NlPassAt(n: Net, nls: seq<Nl>, before: set<Fd>, newR: set<Fd>, more: nat, doesBlock: bool,
                           done: set<Fd>, op: OpId, rset: Option<set<Fd>>, blocking: bool)
    requires FdOk(n)
  {
    |newR| == |before| + more &&
    (forall f :: f in newR <==> f in before || (f in done && f in Given(rset) && ReadableNl(n, f))) &&
    (doesBlock <==> blocking && exists f :: f in done && f in Given(rset)) &&
    |nls| == |n.nls| &&
    (forall f :: f in done && f in n.fds.netlinks ==>
                   nls[n.fds.netlinks[f]] ==
                   n.nls[n.fds.netlinks[f]].(recv := if blocking && f in Given(rset) then SelectNl(op, f)
                                                     else n.nls[n.fds.netlinks[f]].recv)) &&
    (forall i: nat :: i < |nls| && (forall f :: IsFdOf(n.fds.netlinks, f, i) ==> f !in done) ==> nls[i] == n.nls[i])
  }

  ghost predicate NlPass(n: Net, nls: seq<Nl>, before: set<Fd>, newR: set<Fd>, more: nat, doesBlock: bool,
                         rest: set<Fd>, op: OpId, rset: Option<set<Fd>>, blocking: bool)
    requires FdOk(n)
  {
    rest <= n.fds.netlinks.Keys &&
    NlPassAt(n, nls, before, newR, more, doesBlock, n.fds.netlinks.Keys - rest, op, rset, blocking)
  }

  lemma NlPassStep(n: Net, nls: seq<Nl>, before: set<Fd>, newR: set<Fd>, more: nat, doesBlock: bool, done: set<Fd>,
                   fd: Fd, op: OpId, rset: Option<set<Fd>>, blocking: bool, q: Nl)
    requires FdOk(n) && NlPassAt(n, nls, before, newR, more, doesBlock, done, op, rset, blocking)
    requires fd in n.fds.netlinks && fd !in done && fd !in before &&
             (blocking ==> !(fd in Given(rset) && ReadableNl(n, fd)))
    requires q == n.nls[n.fds.netlinks[fd]].(recv := if blocking && fd in Given(rset) then SelectNl(op, fd)
                                                     else n.nls[n.fds.netlinks[fd]].recv)
    ensures nls[n.fds.netlinks[fd]] == n.nls[n.fds.netlinks[fd]]
    ensures var r := fd in Given(rset) && ReadableNl(n, fd);
            NlPassAt(n, nls[n.fds.netlinks[fd] := q], before, if r then newR + {fd} else newR,
                     more + if r then 1 else 0, doesBlock || (blocking && fd in Given(rset)), done + {fd},
                     op, rset, blocking)
  {
    assert forall f :: IsFdOf(n.fds.netlinks, f, n.fds.netlinks[fd]) ==> f == fd;
    var after := nls[n.fds.netlinks[fd] := q];
    assert IsFdOf(n.fds.netlinks, fd, n.fds.netlinks[fd]);
    forall i: nat | i < |after| && (forall f :: IsFdOf(n.fds.netlinks, f, i) ==> f !in done + {fd})
      ensures after[i] == n.nls[i]
    {
      assert i != n.fds.netlinks[fd];
      assert forall f :: IsFdOf(n.fds.netlinks, f, i) ==> f !in done;
    }
  }

  lemma NlPassMore(n: Net, nls: seq<Nl>, before: set<Fd>, newR: set<Fd>, more: nat, doesBlock: bool, rest: set<Fd>,
                   fd: Fd, op: OpId, rset: Option<set<Fd>>, blocking: bool, q: Nl)
    requires FdOk(n) && NlPass(n, nls, before, newR, more, doesBlock, rest, op, rset, blocking)
    requires fd in rest && fd !in before && (blocking ==> !(fd in Given(rset) && ReadableNl(n, fd)))
    requires q == n.nls[n.fds.netlinks[fd]].(recv := if blocking && fd in Given(rset) then SelectNl(op, fd)
                                                     else n.nls[n.fds.netlinks[fd]].recv)
    ensures nls[n.fds.netlinks[fd]] == n.nls[n.fds.netlinks[fd]]
    ensures var r := fd in Given(rset) && ReadableNl(n, fd);
            NlPass(n, nls[n.fds.netlinks[fd] := q], before, if r then newR + {fd} else newR, more + if r then 1 else 0,
                   doesBlock || (blocking && fd in Given(rset)), rest - {fd}, op, rset, blocking)
  {
    var done := n.fds.netlinks.Keys - rest;
    NlPassStep(n, nls, before, newR, more, doesBlock, done, fd, op, rset, blocking, q);
    assert n.fds.netlinks.Keys - (rest - {fd}) == done + {fd};
  }

  lemma NlPassDone(n: Net, nls: seq<Nl>, before: set<Fd>, newR: set<Fd>, more: nat, doesBlock: bool,
                   op: OpId, rset: Option<set<Fd>>, blocking: bool)
    requires FdOk(n) && NlPass(n, nls, before, newR, more, doesBlock, {}, op, rset, blocking)
    ensures newR == before + ReadyRNetlinks(n, rset) && |newR| == |before| + more
    ensures nls == if blocking then WatchedNls(n, op, rset) else n.nls
    ensures doesBlock <==> blocking && exists f :: f in n.fds.netlinks && f in Given(rset)
  {
    assert n.fds.netlinks.Keys - {} == n.fds.netlinks.Keys;
    assert forall f :: f in newR <==> f in before || f in ReadyRNetlinks(n, rset);
    forall i: nat | i < |nls|
      ensures nls[i] == if blocking then WatchedNl(n, i, op, WatchR(n.fds, rset)) else n.nls[i]
    {
      if f :| IsFdOf(n.fds.netlinks, f, i) {
        WatchedNlOf(n, f, op, WatchR(n.fds, rset));
      }
    }
  }

  // ---- select, both together ------------------------------------------------------------------

  /** The sockets that changed have no say among the netlink sockets. */
  lemma NetlinksApart(n: Net, socks: seq<Sock>, op: OpId, rset: Option<set<Fd>>, wset: Option<set<Fd>>)
    requires FdOk(n) && FdOk(n.(socks := socks))
    ensures var m := n.(socks := socks);
            ReadyRNetlinks(m, rset) == ReadyRNetlinks(n, rset) &&
            WatchedNls(m, op, rset) == WatchedNet(n, op, WatchR(n.fds, rset), WatchW(n.fds, wset)).nls
  {
    var m, wr := n.(socks := socks), WatchR(n.fds, rset);
    forall i: nat | i < |n.nls| ensures WatchedNl(m, i, op, wr) == WatchedNl(n, i, op, wr) {
      if f :| IsFdOf(n.fds.netlinks, f, i) {
        WatchedNlOf(n, f, op, wr);
        WatchedNlOf(m, f, op, wr);
      }
    }
  }

  lemma CollectApart(n: Net, socks: seq<Sock>, op: OpId, rset: Option<set<Fd>>, wset: Option<set<Fd>>, blocking: bool)
    requires FdOk(n) && socks == if blocking then WatchedSocks(n, op, rset, wset) else n.socks
    ensures var m := n.(socks := socks);
            FdOk(m) && ReadyRNetlinks(m, rset) == ReadyRNetlinks(n, rset) &&
            (forall f :: f in Given(rset) ==> (ReadableNl(m, f) <==> ReadableNl(n, f))) &&
            WatchedNls(m, op, rset) == WatchedNet(n, op, WatchR(n.fds, rset), WatchW(n.fds, wset)).nls
  {
    WatchedFdOk(n, op, WatchR(n.fds, rset), WatchW(n.fds, wset));
    FdOkSocks(n, op, rset, wset, socks, blocking);
    NetlinksApart(n, socks, op, rset, wset);
  }

  /** Pass 2 may start with the sockets ... */
  lemma FirstHalf(n: Net, rset: Option<set<Fd>>, wset: Option<set<Fd>>, blocking: bool)
    requires FdOk(n) && (blocking ==> NothingReady(n, rset, wset))
    ensures blocking ==> forall f :: f in n.fds.sockets ==> !SocketReady(n, rset, wset, f)
  {
    ReadySplit(n, rset, wset);
  }

  /** ... and go on with the netlink sockets. */
  lemma SecondHalf(n: Net, socks: seq<Sock>, op: OpId, rset: Option<set<Fd>>, wset: Option<set<Fd>>, blocking: bool)
    requires FdOk(n) && (blocking ==> NothingReady(n, rset, wset))
    requires socks == if blocking then WatchedSocks(n, op, rset, wset) else n.socks
    ensures FdOk(n.(socks := socks)) && ReadyRSockets(n, rset) !! n.fds.netlinks.Keys
    ensures blocking ==> forall f :: f in Given(rset) ==> !ReadableNl(n.(socks := socks), f)
  {
    ReadySplit(n, rset, wset);
    CollectApart(n, socks, op, rset, wset, blocking);
  }

  /** The outcomes of the two halves of pass 2, put together. */
  lemma CollectForm(n: Net, socks: seq<Sock>, nls: seq<Nl>, op: OpId, rset: Option<set<Fd>>, wset: Option<set<Fd>>,
                    blocking: bool, doesBlock: bool, moreBlock: bool, newR: set<Fd>, allR: set<Fd>)
    requires FdOk(n) && newR == ReadyRSockets(n, rset) && allR == newR + ReadyRNetlinks(n.(socks := socks), rset)
    requires socks == if blocking then WatchedSocks(n, op, rset, wset) else n.socks
    requires nls == if blocking then WatchedNls(n.(socks := socks), op, rset) else n.nls
    requires doesBlock <==> blocking && exists f :: f in n.fds.sockets && (f in Given(rset) || f in Given(wset))
    requires moreBlock <==> blocking && exists f :: f in n.fds.netlinks && f in Given(rset)
    ensures allR == ReadyR(n, rset)
    ensures doesBlock || moreBlock <==> blocking && !NothingWatched(n.fds, rset, wset)
    ensures n.(socks := socks, nls := nls) ==
            if blocking then WatchedNet(n, op, WatchR(n.fds, rset), WatchW(n.fds, wset)) else n
  {
    ReadySplit(n, rset, wset);
    CollectApart(n, socks, op, rset, wset, blocking);
  }

  lemma FdOkSocks(n: Net, op: OpId, rset: Option<set<Fd>>, wset: Option<set<Fd>>, socks: seq<Sock>, blocking: bool)
    requires FdOk(n) && FdOk(WatchedNet(n, op, WatchR(n.fds, rset), WatchW(n.fds, wset)))
    requires socks == if blocking then WatchedSocks(n, op, rset, wset) else n.socks
    ensures FdOk(n.(socks := socks))
  {
  }

  lemma ReadySplit(n: Net, rset: Option<set<Fd>>, wset: Option<set<Fd>>)
    requires FdOk(n)
    ensures ReadyR(n, rset) == ReadyRSockets(n, rset) + ReadyRNetlinks(n, rset)
    ensures ReadyRSockets(n, rset) !! n.fds.netlinks.Keys
    ensures NothingReady(n, rset, wset) <==>
            (forall f :: f in n.fds.sockets ==> !SocketReady(n, rset, wset, f)) &&
            (forall f :: f in Given(rset) ==> !ReadableNl(n, f))
    ensures NothingWatched(n.fds, rset, wset) <==>
            !(exists f :: f in n.fds.sockets && (f in Given(rset) || f in Given(wset))) &&
            !(exists f :: f in n.fds.netlinks && f in Given(rset))
  {
    if NothingReady(n, rset, wset) {
      forall f | f in n.fds.sockets ensures !SocketReady(n, rset, wset, f) {
        assert f !in ReadyR(n, rset) && f !in ReadyW(n, wset);
      }
      forall f | f in Given(rset) ensures !ReadableNl(n, f) {
        assert f !in ReadyR(n, rset);
      }
    }
    WatchedSplit(n.fds, rset, wset);
  }

  lemma WatchedSplit(t: FdTable, rset: Option<set<Fd>>, wset: Option<set<Fd>>)
    ensures NothingWatched(t, rset, wset) <==>
            !(exists f :: f in t.sockets && (f in Given(rset) || f in Given(wset))) &&
            !(exists f :: f in t.netlinks && f in Given(rset))
  {
    if f :| f in t.sockets && (f in Given(rset) || f in Given(wset)) {
      assert f in WatchR(t, rset) || f in WatchW(t, wset);
    } else if f :| f in t.netlinks && f in Given(rset) {
      assert f in WatchR(t, rset);
    } else {
      assert forall f :: f !in WatchR(t, rset);
      assert forall f :: f !in WatchW(t, wset);
    }
  }

  /** With nothing to watch no slot changes. */
  lemma NothingToDo(n: Net, op: OpId, rset: Option<set<Fd>>, wset: Option<set<Fd>>)
    requires FdOk(n)
    ensures NothingWatched(n.fds, rset, wset) ==> WatchedNet(n, op, WatchR(n.fds, rset), WatchW(n.fds, wset)) == n
  {
    if NothingWatched(n.fds, rset, wset) {
      var m := WatchedNet(n, op, {}, {});
      assert m.socks == n.socks;
      assert m.nls == n.nls;
    }
  }

  /** What both passes together leave behind: which descriptors are ready, and closures exactly if the call blocks. */
  ghost predicate Passed(n: Net, m: Net, op: OpId, rset: Option<set<Fd>>, wset: Option<set<Fd>>,
                         timeout: Option<Timeval>,
                         mayBlock: bool, doesBlock: bool, ctx: nat, newR: set<Fd>, newW: set<Fd>)
  {
    (mayBlock <==> MayBlock(timeout) && NothingReady(n, rset, wset)) &&
    (doesBlock <==> mayBlock && !NothingWatched(n.fds, rset, wset)) &&
    ctx == |newR| + |newW| && newR == ReadyR(n, rset) && newW == ReadyW(n, wset) &&
    m == if doesBlock then WatchedNet(n, op, WatchR(n.fds, rset), WatchW(n.fds, wset)) else n
  }

  /** The thread is recorded as waiting in operation |ops|, whose closures are in place. */
  function Enlisted(s: State, rset: Option<set<Fd>>, wset: Option<set<Fd>>, timeout: Option<Timeval>): State {
    var o := NewSelect(s, s.pid, rset, wset, timeout);
    SetCont(Timed(s.(ops := s.ops + [o]), |s.ops|, timeout), s.pid, InSelect(|s.ops|))
  }

  /** The result the ready sets make. */
  function Reported(ctx: nat, newR: set<Fd>, newW: set<Fd>, rset: Option<set<Fd>>, wset: Option<set<Fd>>): Result {
    Selected(ctx, if rset.Some? then Some(newR) else None, if wset.Some? then Some(newW) else None)
  }

  /** What the call comes to after the passes. */
  lemma SelectForm(s: State, m: Net, rset: Option<set<Fd>>, wset: Option<set<Fd>>, eset: Option<set<Fd>>,
                   timeout: Option<Timeval>, ans: Answer, mayBlock: bool, doesBlock: bool, ctx: nat,
                   newR: set<Fd>, newW: set<Fd>)
    requires !SelectFails(s.net, rset, wset, eset, timeout)
    requires Passed(s.net, m, |s.ops|, rset, wset, timeout, mayBlock, doesBlock, ctx, newR, newW)
    ensures Sim.HandleSelect(s, s.pid, rset, wset, eset, timeout, ans) ==
            if mayBlock && doesBlock then Res(Enlisted(s.(net := m), rset, wset, timeout), Delayed)
            else Answered(s.(net := m), s.pid, Reported(ctx, newR, newW, rset, wset), Success, ans)
  {
    if mayBlock && doesBlock {
      var t := s.(net := m);
      assert NewSelect(t, s.pid, rset, wset, timeout) == NewSelect(s, s.pid, rset, wset, timeout);
    } else {
      assert Reported(ctx, newR, newW, rset, wset) == SelectAnswer(s.net, rset, wset);
      assert s.(net := m) == s;
    }
  }

  /** The error exits of the two passes are those of the specification. */
  lemma FailsIff(n: Net, rset: Option<set<Fd>>, wset: Option<set<Fd>>, eset: Option<set<Fd>>, timeout: Option<Timeval>)
    requires FdOk(n)
    ensures SelectFails(n, rset, wset, eset, timeout) <==>
            (exists f :: f in Given(eset) && f in n.fds.sockets) ||
            (MayBlock(timeout) && (forall f :: f in n.fds.sockets ==> !SocketReady(n, rset, wset, f)) &&
             NetlinkExcepted(n, rset, eset))
  {
    if forall f :: f in n.fds.sockets ==> !SocketReady(n, rset, wset, f) {
      assert ReadyW(n, wset) == {};
      assert forall f :: f in Given(rset) ==> !ReadableSocket(n, f);
    }
    if ReadyW(n, wset) == {} && forall f :: f in Given(rset) ==> !ReadableSocket(n, f) {
      forall f | f in n.fds.sockets ensures !SocketReady(n, rset, wset, f) {
        assert f !in ReadyW(n, wset);
      }
    }
  }

  lemma RunHalts(s: State, steps: seq<Step>)
    ensures s.halted ==> RunAll(s, steps) == s
  {
  }

  function TimerFired(s: State, what: What, stray: Call): State {
    match what
    case SelectTimeout(op) =>
      if op >= |s.ops| || s.ops[op].handled then s else Sim.FinishSelect(s, op, s.ops[op].pid, SelectTimedOut, stray)
    case SleepDone(p) => Resume(Sim.Fake(s, p, Value(0), stray), p)
    case _ => s
  }

  /** A socket's callback. */
  function Called(s: State, act: Action, ans: Answer): State
    requires !act.Fire? && act.sid < |s.net.socks|
  {
    match act
    case Data(_, sid, rx) => OnData(s, sid, rx, ans)
    case Space(_, sid, tx) => OnSpace(s, sid, tx, ans)
    case Connection(_, sid) => OnConnection(s, sid, ans)
    case ConnectEnds(_, sid, ok) => OnConnect(s, sid, ok, ans)
  }

  /** Equal states, or a stopped simulator on both sides. */
  predicate Agree(s: State, t: State) {
    s == t || (s.halted && t.halted)
  }

  /** A netlink socket's receive callback has been run. */
  function NotifiedState(s: State, n: NlId, stray: Call): State
    requires n < |s.net.nls|
  {
    var r := s.net.nls[n].recv;
    if r.SelectNl? && r.op < |s.ops| && !s.ops[r.op].handled then
      var f := Sim.FinishSelect(s, r.op, s.ops[r.op].pid, OneRead(s.ops[r.op], r.fd), stray);
      f.(net := s.net.(nls := s.net.nls[n := s.net.nls[n].(recv := NoNl)]))
    else s
  }

  /** The replies to the effects `es` have been queued on netlink socket `n`. */
  function WithReplies(nls: seq<Nl>, n: NlId, es: seq<Effect>): seq<Nl>
    requires n < |nls|
  {
    nls[n := nls[n].(replies := nls[n].replies + RepliesOf(es))]
  }

  function Booked(s: State, n: NlId, es: seq<Effect>): State
    requires n < |s.net.nls|
  {
    s.(table := RH.ApplyAll(s.table, OpsOf(es)), net := s.net.(nls := WithReplies(s.net.nls, n, es)))
  }

  /** A request has been served, its callback run if there was one to run, and the socket's owner answered. */
  function RequestedState(s: State, n: NlId, es: seq<Effect>, called: bool, returned: int, stray: Call): State
    requires n < |s.net.nls|
  {
    var s1 := Booked(s, n, es);
    Sim.Fake(if called then NotifiedState(s1, n, stray) else s1, s.net.nls[n].owner, Value(returned), stray)
  }

  lemma RequestForm(s: State, fd: Fd, es: seq<Effect>, called: bool, returned: int, ans: Answer)
    requires KnownNl(s.net, fd) && (called <==> Notifies(es) && s.net.nls[s.net.fds.netlinks[fd]].recv.SelectNl?)
    ensures NetlinkSend(s, fd, Fine(es), returned, ans) ==
            Res(RequestedState(s, s.net.fds.netlinks[fd], es, called, returned, ans.stray), Success)
  {
    var n := s.net.fds.netlinks[fd];
    var r := s.net.nls[n].recv;
    var s1 := Booked(s, n, es);
    if r.SelectNl? && r.op < |s.ops| {
      FinishNet(s1, s1.net, r.op, s.ops[r.op].pid, OneRead(s.ops[r.op], r.fd), ans.stray);
    }
  }

  /** The netlink sockets hold what the model says they hold, and share the router that holds the routes. */
  ghost predicate Mirrors(netlinkSockets: seq<NL.NetlinkSocket>, router: HgRoutingProtocol, devices: seq<Device>,
                          nls: seq<Nl>, table: seq<RtEntry>)
    reads netlinkSockets, router
  {
    router.entries == table && |netlinkSockets| == |nls| &&
    forall i: nat :: i < |nls| ==> Holds(netlinkSockets[i], i, router, devices, nls[i])
  }

  ghost predicate Holds(o: NL.NetlinkSocket, i: nat, router: HgRoutingProtocol, devices: seq<Device>, q: Nl)
    reads o
  {
    o.index == i && o.router == router && o.devices == devices && o.pid == q.owner && o.replyQueue == q.replies &&
    o.recvCallback == q.recv
  }

  class Priv {
    const app: App
    const pollLoopDetector: PD.PollLoopDetector
    const router: HgRoutingProtocol

    var pid: Pid
    var sockets: map<Fd, SockId>
    var fakeAcceptedSockets: map<Fd, SockId>
    var tcpSockets: set<Fd>
    var connectedSockets: set<Fd>
    var isListenTcpSocket: set<Fd>
    var nonblockingSockets: set<Fd>
    var randomFds: set<Fd>
    var netlinks: map<Fd, NlId>
    var availableFDs: set<Fd>

    // the simulator, its sockets and netlink sockets, and the traced threads
    var now: nat
    var halted: bool
    var events: map<EvId, Event>
    var nextEvent: EvId
    var socks: seq<Sock>
    var netlinkSockets: seq<NL.NetlinkSocket>
    var ops: seq<SelectOp>
    var tracees: map<Pid, Tracee>

    // what the netlink sockets and the router hold
    ghost var nls: seq<Nl>
    ghost var table: seq<RtEntry>

    ghost predicate Linked()
      reads this, router, netlinkSockets
    {
      Mirrors(netlinkSockets, router, app.devices, nls, table)
    }

    /** What only netlink calls change. */
    ghost function NetlinkPart(): (seq<NL.NetlinkSocket>, seq<Nl>, seq<RtEntry>)
      reads this
    {
      (netlinkSockets, nls, table)
    }

    /** Netlink sockets are added, not replaced. */
    twostate predicate Grown()
      reads this
    {
      forall i: nat :: i < |netlinkSockets| ==> netlinkSockets[i] in old(netlinkSockets) || fresh(netlinkSockets[i])
    }

    function Tables(): FdTable
      reads this
    {
      FdTable(availableFDs, sockets, netlinks, randomFds, tcpSockets, connectedSockets, isListenTcpSocket,
              nonblockingSockets, fakeAcceptedSockets)
    }

    ghost function Network(): Net
      reads this
    {
      Net(Tables(), socks, nls)
    }

    ghost function View(): State
      reads this, pollLoopDetector
    {
      State(app, pid, pollLoopDetector.View(), now, halted, events, nextEvent, tracees, ops, Network(), table)
    }

    constructor (app: App, p: Pid)
      ensures View() == Initial(app, p)
      ensures Linked() && netlinkSockets == []
      ensures fresh(pollLoopDetector) && fresh(router)
    {
      this.app := app;
      this.pollLoopDetector := new PD.PollLoopDetector();
      this.router := new HgRoutingProtocol();
      pid, now, halted := p, 0, false;
      sockets, fakeAcceptedSockets, netlinks := map[], map[], map[];
      tcpSockets, connectedSockets, isListenTcpSocket, nonblockingSockets, randomFds := {}, {}, {}, {}, {};
      availableFDs := AllFds();
      events, nextEvent := map[0 := Event(0, Before(p))], 1;
      tracees := map[p := Tracee(AtExit(Kernel), Resumes(0))];
      socks, netlinkSockets, ops := [], [], [];
      nls, table := [], [];
    }

    // ---- Descriptors --------------------------------------------------------------------

    predicate FdIsEmulatedSocket(fd: Fd)
      reads this
    {
      fd in netlinks || fd in sockets || fd in randomFds
    }

    /** The least free descriptor; the caller has made sure that there is one. */
    method GetNextFD() returns (fd: Fd)
      requires availableFDs != {}
      modifies this`availableFDs
      ensures fd in old(availableFDs) && forall f :: f in old(availableFDs) ==> fd <= f
      ensures fd == Least(old(availableFDs)) && availableFDs == old(availableFDs) - {fd}
    {
      fd := Least(availableFDs);
      availableFDs := availableFDs - {fd};
    }

    // ---- Threads and events ---------------------------------------------------------------

    method Fake(p: Pid, result: Result, stray: Call)
      modifies this`tracees, this`halted
      ensures View() == Sim.Fake(old(View()), p, result, stray)
    {
      if p !in tracees {
        halted := true;
        return;
      }
      var t := tracees[p];
      tracees := tracees[p := t.(stop := if t.stop.AtEntry? then AtExit(result) else AtEntry(stray))];
    }

    method Schedule(at: nat, what: What)
      modifies this`events, this`nextEvent
      ensures View() == Sim.Schedule(old(View()), at, what)
    {
      events := events[nextEvent := Event(at, what)];
      nextEvent := nextEvent + 1;
    }

    method Record(p: Pid, cont: Cont)
      modifies this`tracees
      ensures View() == SetCont(old(View()), p, cont)
    {
      if p in tracees {
        tracees := tracees[p := tracees[p].(cont := cont)];
      }
    }

    method Reschedule(p: Pid)
      modifies this`events, this`nextEvent, this`tracees
      ensures View() == Resume(old(View()), p)
    {
      var e, delay := nextEvent, pollLoopDetector.GetDelay();
      Schedule(now + app.processing + delay, Before(p));
      Record(p, Resumes(e));
    }

    method ProcessStatusCode(res: Code, p: Pid)
      modifies this`events, this`nextEvent, this`tracees, this`halted
      ensures View() == Sim.ProcessStatusCode(old(View()), res, p)
    {
      if res == Manual {
      } else if res == Success {
        Reschedule(p);
      } else if res == Failure {
        Reschedule(p);
      } else if res == Error {
        halted := true;
      } else if res == Delayed {
      } else {
        assert res == SystemExit;
        if app.mayQuit {
          tracees := tracees - {p};
        } else {
          halted := true;
        }
      }
    }

    method SetSocket(sid: SockId, k: Sock)
      requires sid < |socks|
      modifies this`socks
      ensures View() == SetSock(old(View()), sid, k)
    {
      socks := socks[sid := k];
    }

    // ---- Reading and writing ----------------------------------------------------------------

    method Receive(fd: Fd, again: Code, ans: Answer) returns (code: Code)
      requires Known(View().net, fd)
      modifies this`socks, this`tracees, this`events, this`nextEvent, this`halted
      ensures View() == HandleReceive(old(View()), pid, fd, again, ans).s
      ensures code == HandleReceive(old(View()), old(pid), fd, again, ans).code
    {
      var sid := sockets[fd];
      var k := socks[sid];
      ghost var s := View();
      if k.rx > 0 {
        Fake(pid, Value(ans.ret), ans.stray);
        FakeNet(s, s.net, pid, Value(ans.ret), ans.stray);
        ResumeNet(View(), s.net, pid);
        Reschedule(pid);
        SetSocket(sid, k.(rx := ans.rxAfter, recv := NoRecv));
        code := Manual;
      } else if fd in nonblockingSockets {
        Fake(pid, Value(-EWOULDBLOCK), ans.stray);
        code := again;
      } else {
        SetSocket(sid, k.(recv := ReadWait(pid, fd)));
        Record(pid, InRecv(fd));
        code := Delayed;
      }
    }

    method HandleRead(fd: Fd, count: nat, ans: Answer) returns (code: Code)
      requires FdOk(View().net)
      modifies this`socks, this`tracees, this`events, this`nextEvent, this`halted
      ensures View() == Sim.HandleRead(old(View()), old(pid), fd, count, ans).s
      ensures code == Sim.HandleRead(old(View()), old(pid), fd, count, ans).code
    {
      if !FdIsEmulatedSocket(fd) {
        Fake(pid, Kernel, ans.stray);
        return Success;
      } else if fd in randomFds {
        Fake(pid, Value(count), ans.stray);
        return Success;
      } else if fd in tcpSockets {
        code := Receive(fd, Failure, ans);
      } else {
        return Error;
      }
    }

    method HandleRecvFrom(fd: Fd, ans: Answer) returns (code: Code)
      requires FdOk(View().net)
      modifies this`socks, this`tracees, this`events, this`nextEvent, this`halted
      ensures View() == Sim.HandleRecvFrom(old(View()), old(pid), fd, ans).s
      ensures code == Sim.HandleRecvFrom(old(View()), old(pid), fd, ans).code
    {
      if fd !in sockets {
        return Error;
      }
      code := Receive(fd, Success, ans);
    }

    method HandleWrite(fd: Fd, count: nat, ans: Answer) returns (code: Code)
      requires FdOk(View().net)
      modifies this`socks, this`tracees, this`halted
      ensures View() == Sim.HandleWrite(old(View()), old(pid), fd, count, ans).s
      ensures code == Sim.HandleWrite(old(View()), old(pid), fd, count, ans).code
    {
      if fd != 1 && fd != 2 && !FdIsEmulatedSocket(fd) {
        Fake(pid, Kernel, ans.stray);
        return Success;
      } else if !FdIsEmulatedSocket(fd) {
        if count == 0 {
          return Error;
        }
        Fake(pid, Value(count), ans.stray);
        return Success;
      }
      if fd !in connectedSockets {
        return Error;
      }
      var sid := sockets[fd];
      if socks[sid].tx == 0 {
        if fd in nonblockingSockets {
          Fake(pid, Value(-EWOULDBLOCK), ans.stray);
          return Failure;
        }
        socks := socks[sid := socks[sid].(send := WriteWait(pid))];
        Record(pid, InWrite(fd));
        return Delayed;
      }
      socks := socks[sid := socks[sid].(tx := ans.txAfter)];
      Fake(pid, Value(ans.ret), ans.stray);
      code := if ans.ret > 0 then Success else Error;
    }

    // ---- Descriptor tables ------------------------------------------------------------------

    method HandleOpen(random: bool, ans: Answer) returns (code: Code)
      modifies this`availableFDs, this`randomFds, this`tracees, this`halted
      ensures View() == Sim.HandleOpen(old(View()), old(pid), random, ans).s
      ensures code == Sim.HandleOpen(old(View()), old(pid), random, ans).code
    {
      if !random {
        Fake(pid, Kernel, ans.stray);
        return Success;
      }
      if availableFDs == {} {
        return Error;
      }
      var fd := GetNextFD();
      randomFds := randomFds + {fd};
      Fake(pid, Value(fd), ans.stray);
      return Success;
    }

    method HandleClose(fd: Fd, ans: Answer) returns (code: Code)
      modifies this`sockets, this`tcpSockets, this`connectedSockets, this`isListenTcpSocket, this`nonblockingSockets,
               this`netlinks, this`randomFds, this`availableFDs, this`events, this`nextEvent, this`tracees,
               this`halted
      ensures View() == Sim.HandleClose(old(View()), old(pid), fd, ans).s
      ensures code == Sim.HandleClose(old(View()), old(pid), fd, ans).code
    {
      if !FdIsEmulatedSocket(fd) {
        Fake(pid, Kernel, ans.stray);
        return Success;
      }
      if fd in sockets {
        CloseSocket(fd);
      } else if fd in netlinks {
        netlinks := netlinks - {fd};
        availableFDs := availableFDs + {fd};
        assert View() == WithFds(old(View()), NetlinkClosed(old(View()).net.fds, fd));
      } else {
        randomFds := randomFds - {fd};
        availableFDs := availableFDs + {fd};
        assert View() == WithFds(old(View()), RandomClosed(old(View()).net.fds, fd));
      }
      Fake(pid, Value(0), ans.stray);
      return Success;
    }

    /** The descriptor leaves all socket tables; the socket itself is disposed of a second later. */
    method CloseSocket(fd: Fd)
      requires fd in sockets
      modifies this`sockets, this`tcpSockets, this`connectedSockets, this`isListenTcpSocket, this`nonblockingSockets,
               this`availableFDs, this`events, this`nextEvent
      ensures View() == Sim.CloseSocket(old(View()), fd)
    {
      var sock := sockets[fd];
      sockets := sockets - {fd};
      tcpSockets := tcpSockets - {fd};
      connectedSockets := connectedSockets - {fd};
      isListenTcpSocket := isListenTcpSocket - {fd};
      nonblockingSockets := nonblockingSockets - {fd};
      availableFDs := availableFDs + {fd};
      assert View() == WithFds(old(View()), SocketClosed(old(View()).net.fds, fd));
      Schedule(Later(now, 1, 0), SocketCleanup(sock));
    }

    method HandleFcntl(fd: Fd, cmd: FcntlCmd, ans: Answer) returns (code: Code)
      modifies this`nonblockingSockets, this`tracees, this`halted
      ensures View() == Sim.HandleFcntl(old(View()), old(pid), fd, cmd, ans).s
      ensures code == Sim.HandleFcntl(old(View()), old(pid), fd, cmd, ans).code
    {
      if !FdIsEmulatedSocket(fd) {
        Fake(pid, Kernel, ans.stray);
        return Success;
      }
      if cmd.SetFlags? && fd in netlinks {
        Fake(pid, Value(0), ans.stray);
        return Success;
      }
      if cmd.GetFlags? && fd in sockets {
        Fake(pid, Value(0), ans.stray);
        return Success;
      }
      if cmd.SetFlags? && fd in sockets {
        if cmd.nonblock {
          nonblockingSockets := nonblockingSockets + {fd};
          Fake(pid, Value(0), ans.stray);
          return Success;
        }
        Fake(pid, Value(-1), ans.stray);
        return Failure;
      }
      return Error;
    }

    method OpenSocket(kind: SockType, tx: nat) returns (fd: Fd)
      requires availableFDs != {}
      modifies this`availableFDs, this`sockets, this`tcpSockets, this`socks
      ensures fd == Least(old(availableFDs)) && Network() == WithSocket(old(Network()), kind, tx)
    {
      fd := GetNextFD();
      sockets := sockets[fd := |socks|];
      socks := socks + [FRESH_SOCK.(tx := tx)];
      if kind == Stream {
        tcpSockets := tcpSockets + {fd};
      }
    }

    method NewNetlinkSocket()
      requires Linked()
      modifies this`netlinkSockets, this`nls
      ensures Linked() && Grown() && nls == old(nls) + [Nl(pid, [], NoNl)]
    {
      var sock := new NL.NetlinkSocket(|nls|, pid, app.devices, router);
      netlinkSockets, nls := netlinkSockets + [sock], nls + [Nl(pid, [], NoNl)];
    }

    method OpenNetlink() returns (fd: Fd)
      requires availableFDs != {} && Linked()
      modifies this`availableFDs, this`netlinks, this`netlinkSockets, this`nls
      ensures Linked() && Grown()
      ensures fd == Least(old(availableFDs)) && Network() == WithNetlink(old(Network()), pid)
    {
      fd := GetNextFD();
      netlinks := netlinks[fd := |netlinkSockets|];
      NewNetlinkSocket();
    }

    method InetSocket(kind: SockType, route: bool, ans: Answer) returns (code: Code)
      modifies this`availableFDs, this`sockets, this`tcpSockets, this`socks, this`tracees, this`halted
      ensures View() == Sim.HandleSocket(old(View()), pid, Inet, kind, route, ans).s
      ensures code == Sim.HandleSocket(old(View()), pid, Inet, kind, route, ans).code
    {
      if kind != Dgram && kind != Stream {
        Fake(pid, Value(-EPROTONOSUPPORT), ans.stray);
        return Failure;
      }
      if availableFDs == {} {
        return Error;
      }
      var fd := OpenSocket(kind, ans.txAfter);
      Fake(pid, Value(fd), ans.stray);
      return Success;
    }

    method NetlinkSocket(kind: SockType, route: bool, ans: Answer) returns (code: Code)
      requires Linked()
      modifies this`availableFDs, this`netlinks, this`netlinkSockets, this`nls, this`tracees, this`halted
      ensures Linked() && Grown()
      ensures View() == Sim.HandleSocket(old(View()), pid, NetlinkFamily, kind, route, ans).s
      ensures code == Sim.HandleSocket(old(View()), pid, NetlinkFamily, kind, route, ans).code
    {
      if kind != Raw && kind != Dgram {
        Fake(pid, Value(-EPROTOTYPE), ans.stray);
        return Failure;
      }
      if !route {
        Fake(pid, Value(-EPROTONOSUPPORT), ans.stray);
        return Error;
      }
      if availableFDs == {} {
        return Error;
      }
      GiveNetlink(ans);
      return Success;
    }

    method GiveNetlink(ans: Answer)
      requires availableFDs != {} && Linked()
      modifies this`availableFDs, this`netlinks, this`netlinkSockets, this`nls, this`tracees, this`halted
      ensures Linked() && Grown()
      ensures var s := old(View());
              View() == Sim.Fake(s.(net := WithNetlink(s.net, s.pid)), s.pid, Value(Least(s.net.fds.available)),
                                 ans.stray)
    {
      var fd := OpenNetlink();
      Fake(pid, Value(fd), ans.stray);
    }

    method HandleSocket(family: Family, kind: SockType, route: bool, ans: Answer) returns (code: Code)
      requires Linked()
      modifies this
      ensures Linked() && Grown()
      ensures View() == Sim.HandleSocket(old(View()), old(pid), family, kind, route, ans).s
      ensures code == Sim.HandleSocket(old(View()), old(pid), family, kind, route, ans).code
    {
      if family == Inet {
        code := InetSocket(kind, route, ans);
      } else if family == NetlinkFamily {
        code := NetlinkSocket(kind, route, ans);
      } else {
        Fake(pid, Value(-EAFNOSUPPORT), ans.stray);
        return Failure;
      }
    }

    // ---- Connections --------------------------------------------------------------------------

    method HandleListen(fd: Fd, ans: Answer) returns (code: Code)
      requires FdOk(View().net)
      modifies this`isListenTcpSocket, this`socks, this`tracees, this`halted
      ensures View() == Sim.HandleListen(old(View()), old(pid), fd, ans).s
      ensures code == Sim.HandleListen(old(View()), old(pid), fd, ans).code
    {
      if fd !in tcpSockets || fd in isListenTcpSocket {
        Fake(pid, Value(-EOPNOTSUPP), ans.stray);
        return Failure;
      }
      isListenTcpSocket := isListenTcpSocket + {fd};
      Fake(pid, Value(ans.ret), ans.stray);
      if ans.ret != 0 {
        return Failure;
      }
      var sid := sockets[fd];
      socks := socks[sid := Sim.Listening(socks[sid], fd)];
      return Success;
    }

    method HandleConnect(fd: Fd, inet: bool, ans: Answer) returns (code: Code)
      requires FdOk(View().net)
      modifies this`socks, this`connectedSockets, this`events, this`nextEvent, this`tracees, this`halted
      ensures View() == Sim.HandleConnect(old(View()), old(pid), fd, inet, ans).s
      ensures code == Sim.HandleConnect(old(View()), old(pid), fd, inet, ans).code
    {
      if fd !in sockets {
        Fake(pid, Value(-1), ans.stray);
        return Failure;
      }
      if !inet {
        return Error;
      }
      var sid := sockets[fd];
      socks := socks[sid := Attempted(socks[sid], pid, fd, ans)];
      Record(pid, InConnect(fd));
      if ans.connected.Some? {
        ConnectionEnded(sid, ans.connected.value, ans);
      }
      return Delayed;
    }

    method HandleAccept(fd: Fd, ans: Answer) returns (code: Code)
      requires FdOk(View().net)
      modifies this`fakeAcceptedSockets, this`availableFDs, this`sockets, this`tcpSockets, this`connectedSockets,
               this`socks, this`tracees, this`halted
      ensures View() == Sim.HandleAccept(old(View()), old(pid), fd, ans).s
      ensures code == Sim.HandleAccept(old(View()), old(pid), fd, ans).code
    {
      if !FdIsEmulatedSocket(fd) || fd !in isListenTcpSocket {
        return Error;
      }
      if fd in fakeAcceptedSockets {
        if availableFDs == {} {
          return Error;
        }
        var sock := fakeAcceptedSockets[fd];
        fakeAcceptedSockets := fakeAcceptedSockets - {fd};
        TakeConnection(sock, pid, ans);
        return Success;
      }
      if fd in nonblockingSockets {
        Fake(pid, Value(-EWOULDBLOCK), ans.stray);
        return Failure;
      }
      var sid := sockets[fd];
      socks := socks[sid := socks[sid].(accept := AcceptWait(pid, fd))];
      Record(pid, InAccept(fd));
      return Delayed;
    }

    /** A new descriptor for a connection. */
    method AddConnection(sock: SockId) returns (fd: Fd)
      requires availableFDs != {}
      modifies this`availableFDs, this`sockets, this`tcpSockets, this`connectedSockets
      ensures fd == Least(old(availableFDs)) && Tables() == WithAccepted(old(Tables()), fd, sock)
    {
      fd := GetNextFD();
      sockets := sockets[fd := sock];
      tcpSockets := tcpSockets + {fd};
      connectedSockets := connectedSockets + {fd};
    }

    /** A connection is handed to thread `p`. */
    method TakeConnection(sock: SockId, p: Pid, ans: Answer)
      requires availableFDs != {}
      modifies this`availableFDs, this`sockets, this`tcpSockets, this`connectedSockets, this`tracees, this`halted
      ensures var s := old(View());
              var fd := Least(s.net.fds.available);
              View() == Sim.Fake(WithFds(s, WithAccepted(s.net.fds, fd, sock)), p, Value(fd), ans.stray)
    {
      var fd := AddConnection(sock);
      Fake(p, Value(fd), ans.stray);
    }

    // ---- Netlink ------------------------------------------------------------------------------

    /** What the closure of a select does when the receive callback it left has been run. */
    method RunClosure(cb: NlCb, ans: Answer) returns (answered: bool)
      requires cb.SelectNl?
      modifies this`ops, this`events, this`nextEvent, this`tracees, this`halted
      ensures answered <==> cb.op < |old(ops)| && !old(ops)[cb.op].handled
      ensures View() == if answered
                        then Sim.FinishSelect(old(View()), cb.op, old(ops)[cb.op].pid, OneRead(old(ops)[cb.op], cb.fd),
                                              ans.stray)
                        else old(View())
    {
      answered := cb.op < |ops| && !ops[cb.op].handled;
      if answered {
        FinishSelect(cb.op, ops[cb.op].pid, OneRead(ops[cb.op], cb.fd), ans.stray);
      }
    }

    /** The receive callback of netlink socket `n` has been run: the select it belongs to is answered. */
    method Notify(n: NlId, ans: Answer)
      requires Linked() && n < |nls| && nls[n].recv.SelectNl?
      modifies this`ops, this`events, this`nextEvent, this`tracees, this`halted, this`nls, netlinkSockets
      ensures Linked()
      ensures View() == NotifiedState(old(View()), n, ans.stray)
    {
      var answered := RunClosure(netlinkSockets[n].recvCallback, ans);
      if answered {
        FinishNet(old(View()), View().net, nls[n].recv.op, old(ops)[nls[n].recv.op].pid,
                  OneRead(old(ops)[nls[n].recv.op], nls[n].recv.fd), ans.stray);
        netlinkSockets[n].UnsetRecvCallback();
        nls := nls[n := nls[n].(recv := NoNl)];
      }
    }

    /** The effects `es` are put on record. */
    ghost method Book(n: NlId, es: seq<Effect>)
      requires n < |nls|
      requires Mirrors(netlinkSockets, router, app.devices, WithReplies(nls, n, es), RH.ApplyAll(table, OpsOf(es)))
      modifies this`nls, this`table
      ensures Linked()
      ensures View() == Booked(old(View()), n, es)
    {
      table, nls := RH.ApplyAll(table, OpsOf(es)), WithReplies(nls, n, es);
    }

    /** Netlink socket `n` has served a request with the effects `es`; the thread that made the socket is answered. */
    method Requested(n: NlId, ghost es: seq<Effect>, called: bool, returned: int, ans: Answer)
      requires n < |nls| && Serves(n, es, called)
      modifies this`ops, this`events, this`nextEvent, this`tracees, this`halted, this`nls, this`table, netlinkSockets
      ensures Linked()
      ensures View() == RequestedState(old(View()), n, es, called, returned, ans.stray)
    {
      Book(n, es);
      if called {
        Notify(n, ans);
      }
      Fake(netlinkSockets[n].pid, Value(returned), ans.stray);
    }

    /** What a request does to the netlink sockets; `called` says whether it has run the callback of socket `n`. */
    ghost predicate Serves(n: NlId, es: seq<Effect>, called: bool)
      requires n < |nls|
      reads this, router, netlinkSockets
    {
      Mirrors(netlinkSockets, router, app.devices, WithReplies(nls, n, es), RH.ApplyAll(table, OpsOf(es))) &&
      (called <==> Notifies(es) && nls[n].recv.SelectNl?)
    }

    method SendOne(n: NlId, buf: Bytes) returns (alive: bool, called: bool, returned: nat)
      requires Linked() && n < |nls|
      modifies router, netlinkSockets
      ensures alive <==> WalkMsgs(buf, app.devices).Fine?
      ensures alive ==> Serves(n, WalkMsgs(buf, app.devices).value, called) && returned == LeftoverValue(buf)
    {
      var sock := netlinkSockets[n];
      var before := sock.notifications;
      alive, returned := sock.HandleSendTo(buf);
      called := sock.notifications > before;
      if alive {
        DumpsNotify(WalkMsgs(buf, app.devices).value);
      }
    }

    method SendAll(n: NlId, iov: seq<Bytes>) returns (alive: bool, called: bool, total: nat)
      requires Linked() && n < |nls|
      modifies router, netlinkSockets
      ensures alive <==> WalkBuffers(iov, app.devices).Fine?
      ensures alive ==> Serves(n, WalkBuffers(iov, app.devices).value, called) && total == NL.TotalLen(iov)
    {
      var sock := netlinkSockets[n];
      var before := sock.notifications;
      alive, total := sock.HandleSendMsg(iov);
      called := sock.notifications > before;
      if alive {
        DumpsNotify(WalkBuffers(iov, app.devices).value);
      }
    }

    method HandleSendTo(fd: Fd, buf: Bytes, flags: SendFlags, dest: Dest, ans: Answer) returns (code: Code)
      requires FdOk(View().net) && Linked()
      modifies this`ops, this`events, this`nextEvent, this`tracees, this`halted, this`nls, this`table, router,
               netlinkSockets
      ensures code == Sim.HandleSendTo(old(View()), pid, fd, buf, flags, dest, ans).code
      ensures code != Error ==> Linked() && View() == Sim.HandleSendTo(old(View()), pid, fd, buf, flags, dest, ans).s
    {
      if fd in sockets {
        if flags == OtherFlags || dest == OtherDest {
          return Error;
        }
        Fake(pid, Value(ans.ret), ans.stray);
        return Success;
      }
      if fd !in netlinks || flags != NoFlags {
        return Error;
      }
      var alive, called, returned := SendOne(netlinks[fd], buf);
      if !alive {
        return Error;
      }
      ghost var es := WalkMsgs(buf, app.devices).value;
      RequestForm(View(), fd, es, called, returned, ans);
      Requested(netlinks[fd], es, called, returned, ans);
      return Success;
    }

    method HandleSendMsg(fd: Fd, iov: seq<Bytes>, ans: Answer) returns (code: Code)
      requires FdOk(View().net) && Linked()
      modifies this`ops, this`events, this`nextEvent, this`tracees, this`halted, this`nls, this`table, router,
               netlinkSockets
      ensures code == Sim.HandleSendMsg(old(View()), fd, iov, ans).code
      ensures code != Error ==> Linked() && View() == Sim.HandleSendMsg(old(View()), fd, iov, ans).s
    {
      if fd !in netlinks {
        return Error;
      }
      var alive, called, total := SendAll(netlinks[fd], iov);
      if !alive {
        return Error;
      }
      ghost var es := WalkBuffers(iov, app.devices).value;
      RequestForm(View(), fd, es, called, total, ans);
      Requested(netlinks[fd], es, called, total, ans);
      return Success;
    }

    /** Netlink socket `n` is asked for a reply. */
    method TakeReply(n: NlId, iovLen: nat) returns (received: NL.Received)
      requires Linked() && n < |nls|
      modifies this`nls, netlinkSockets
      ensures Linked()
      ensures var q := old(nls)[n];
              if q.replies == [] then received == NL.QueueEmpty && nls == old(nls)
              else if NL.ReplyLen(q.replies[0]) > iovLen then received == NL.Aborted && nls == old(nls)
              else received == NL.Received(q.replies[0], NL.ReplyLen(q.replies[0])) &&
                   nls == old(nls)[n := q.(replies := q.replies[1..])]
    {
      received := netlinkSockets[n].HandleRecvMsg(iovLen);
      if received.Received? {
        nls := nls[n := nls[n].(replies := nls[n].replies[1..])];
      }
    }

    method HandleRecvMsg(fd: Fd, iovLen: nat, ans: Answer) returns (code: Code)
      requires FdOk(View().net) && Linked()
      modifies this`tracees, this`halted, this`nls, netlinkSockets
      ensures Linked()
      ensures Res(View(), code) == Sim.HandleRecvMsg(old(View()), fd, iovLen, ans)
    {
      if fd !in netlinks {
        return Error;
      }
      var n := netlinks[fd];
      var received := TakeReply(n, iovLen);
      if received.Aborted? {
        return Error;
      }
      var result := if received.QueueEmpty? then Value(-1) else Message(received.len, received.reply);
      Fake(netlinkSockets[n].pid, result, ans.stray);
      code := if received.QueueEmpty? then Failure else Success;
    }

    // ---- Closures -----------------------------------------------------------------------------

    /** Sets the flag that all closures of a select share and cancels the timeout. */
    method Claim(op: OpId)
      requires op < |ops|
      modifies this`ops, this`events
      ensures View() == old(View()).(ops := old(ops)[op := old(ops)[op].(handled := true)],
                                     events := Cancel(old(events), old(ops)[op].timeout))
    {
      ops := ops[op := ops[op].(handled := true)];
      if ops[op].timeout.Some? {
        events := events - {ops[op].timeout.value};
      }
    }

    /** What all closures of a select do once they have found its flag unset. */
    method FinishSelect(op: OpId, faked: Pid, result: Result, stray: Call)
      requires op < |ops|
      modifies this`ops, this`events, this`nextEvent, this`tracees, this`halted
      ensures View() == Sim.FinishSelect(old(View()), op, faked, result, stray)
    {
      var o := ops[op];
      Claim(op);
      Fake(faked, result, stray);
      Reschedule(o.pid);
    }

    method SocketReceived(sid: SockId, rx: nat, ans: Answer)
      requires sid < |socks|
      modifies this`socks, this`ops, this`events, this`nextEvent, this`tracees, this`halted
      ensures View() == OnData(old(View()), sid, rx, ans)
    {
      var k := socks[sid];
      socks := socks[sid := k.(rx := rx)];
      match k.recv {
        case NoRecv =>
        case SelectRecv(op, fd) =>
          if op < |ops| && !ops[op].handled {
            FinishSelect(op, pid, OneRead(ops[op], fd), ans.stray);
            socks := socks[sid := socks[sid].(recv := NoRecv)];
          }
        case ReadWait(p, fd) =>
          Fake(p, Value(ans.ret), ans.stray);
          Reschedule(p);
          socks := socks[sid := socks[sid].(rx := ans.rxAfter, recv := NoRecv)];
      }
    }

    method SpaceAvailable(sid: SockId, tx: nat, ans: Answer)
      requires sid < |socks|
      modifies this`socks, this`ops, this`events, this`nextEvent, this`tracees, this`halted
      ensures View() == OnSpace(old(View()), sid, tx, ans)
    {
      var k := socks[sid];
      socks := socks[sid := k.(tx := tx)];
      if k.send.SelectSend? && k.send.op < |ops| && !ops[k.send.op].handled {
        FinishSelect(k.send.op, ops[k.send.op].pid, OneWrite(ops[k.send.op], k.send.fd), ans.stray);
        socks := socks[sid := socks[sid].(send := NoSend)];
      }
    }

    method ConnectionEnded(sid: SockId, ok: bool, ans: Answer)
      requires sid < |socks|
      modifies this`socks, this`connectedSockets, this`events, this`nextEvent, this`tracees, this`halted
      ensures View() == OnConnect(old(View()), sid, ok, ans)
      ensures var c := old(socks)[sid].connect;
              c.ConnectWait? && c.pid in old(tracees) && old(tracees)[c.pid].stop.AtEntry? ==>
                c.pid in tracees && tracees[c.pid].stop == AtExit(Value(if ok then 0 else -1)) &&
                connectedSockets == old(connectedSockets) + if ok then {c.fd} else {}
    {
      var k := socks[sid];
      ghost var s := View();
      SetSocket(sid, k.(connecting := false));
      if k.connect.ConnectWait? {
        ghost var s1 := View();
        if ok {
          connectedSockets := connectedSockets + {k.connect.fd};
          assert View() == WithFds(s1, s.net.fds.(connected := s.net.fds.connected + {k.connect.fd}));
        }
        Fake(k.connect.pid, Value(if ok then 0 else -1), ans.stray);
        Reschedule(k.connect.pid);
      }
    }

    // ---- select: pass 1 -------------------------------------------------------------------------

    /** Whether a socket is ready; stops at the first that is, or gives up at an exception descriptor. */
    method ScanSockets(rset: Option<set<Fd>>, wset: Option<set<Fd>>, eset: Option<set<Fd>>)
      returns (hasData: bool, unsupported: bool)
      requires FdOk(Network())
      ensures unsupported ==> exists f :: f in Given(eset) && f in sockets
      ensures !unsupported && !hasData ==> forall f :: f in sockets ==> f !in Given(eset)
      ensures !unsupported ==> (hasData <==> exists f :: f in sockets && SocketReady(Network(), rset, wset, f))
    {
      var rest := sockets.Keys;
      while rest != {}
        invariant rest <= sockets.Keys
        invariant forall f :: f in sockets && f !in rest ==> !SocketReady(Network(), rset, wset, f) && f !in Given(eset)
      {
        var fd := Least(rest);
        var k := socks[sockets[fd]];
        if fd in Given(wset) && k.tx > 0 {
          assert SocketReady(Network(), rset, wset, fd);
          return true, false;
        }
        if fd in Given(rset) && k.rx > 0 {
          assert SocketReady(Network(), rset, wset, fd);
          return true, false;
        }
        if fd in Given(rset) && fd in fakeAcceptedSockets {
          assert SocketReady(Network(), rset, wset, fd);
          return true, false;
        }
        if fd in Given(eset) {
          return false, true;
        }
        rest := rest - {fd};
      }
      return false, false;
    }

    /** The same for netlink sockets; here an exception descriptor counts only if it is reached. */
    method ScanNetlinks(rset: Option<set<Fd>>, eset: Option<set<Fd>>) returns (hasData: bool, unsupported: bool)
      requires FdOk(Network()) && Linked()
      ensures unsupported <==> NetlinkExcepted(Network(), rset, eset)
      ensures !unsupported ==> (hasData <==> exists f :: f in Given(rset) && ReadableNl(Network(), f))
    {
      var rest := netlinks.Keys;
      while rest != {}
        invariant rest <= netlinks.Keys
        invariant forall f, g :: f in netlinks && f !in rest && g in rest ==> f < g
        invariant forall f :: f in netlinks && f !in rest ==>
                                !(f in Given(rset) && ReadableNl(Network(), f)) && f !in Given(eset)
      {
        var fd := Least(rest);
        if fd in Given(rset) && netlinkSockets[netlinks[fd]].HasData() {
          assert ReadableNl(Network(), fd);
          return true, false;
        }
        if fd in Given(eset) {
          assert forall r :: r in Given(rset) && r <= fd ==> !ReadableNl(Network(), r);
          return false, true;
        }
        rest := rest - {fd};
      }
      return false, false;
    }

    // ---- select: pass 2 -------------------------------------------------------------------------

    /** One socket of pass 2: is it ready to be read or written, and which closures go into its slots? */
    method WatchSocket(fd: Fd, reading: bool, writing: bool, blocking: bool, op: OpId)
      returns (k: Sock, readable: bool, writable: bool, blocks: bool)
      requires Known(Network(), fd)
      ensures readable <==> reading && ReadableSocket(Network(), fd)
      ensures writable <==> writing && Writable(Network(), fd)
      ensures blocks <==> blocking && !writable && ((writing && !writable) || (reading && !readable))
      ensures !blocking ==> k == socks[sockets[fd]]
      ensures blocking && !readable && !writable ==> k == Slots(Network(), fd, op, reading, writing)
    {
      k := socks[sockets[fd]];
      readable, writable, blocks := false, false, false;
      var mayBlock := blocking;
      if writing {
        if k.tx > 0 {
          writable, mayBlock := true, false;
        } else if mayBlock {
          k := k.(send := SelectSend(op, fd));
          blocks := true;
        }
      }
      if reading {
        if k.rx > 0 {
          readable := true;
        } else if fd in fakeAcceptedSockets {
          readable := true;
        } else if mayBlock && fd in isListenTcpSocket {
          k := k.(accept := SelectAccept(op, fd));
          blocks := true;
        } else if mayBlock {
          k := k.(recv := SelectRecv(op, fd));
          blocks := true;
        }
      }
    }

    /** Collects the ready sockets, or leaves closures of operation `op` with the watched ones. */
    method WatchSockets(rset: Option<set<Fd>>, wset: Option<set<Fd>>, eset: Option<set<Fd>>, blocking: bool, op: OpId)
      returns (mayBlock: bool, doesBlock: bool, ctx: nat, newR: set<Fd>, newW: set<Fd>, unsupported: bool)
      requires FdOk(Network())
      requires blocking ==> forall f :: f in sockets ==> !SocketReady(Network(), rset, wset, f)
      modifies this`socks
      ensures unsupported <==> exists f :: f in Given(eset) && f in sockets
      ensures !unsupported ==>
                mayBlock == blocking && ctx == |newR| + |newW| &&
                newR == ReadyRSockets(old(Network()), rset) && newW == ReadyW(old(Network()), wset)
      ensures !unsupported ==>
              (doesBlock <==> blocking && exists f :: f in sockets && (f in Given(rset) || f in Given(wset)))
      ensures !unsupported ==>
                socks == if blocking then WatchedSocks(old(Network()), op, rset, wset) else old(socks)
    {
      ghost var n := Network();
      mayBlock, doesBlock, ctx, newR, newW, unsupported := blocking, false, 0, {}, {}, false;
      var rest := sockets.Keys;
      while rest != {}
        invariant mayBlock == blocking
        invariant PassTwo(n, socks, newR, newW, ctx, doesBlock, rest, op, rset, wset, eset, blocking)
      {
        var fd := Least(rest);
        if fd in Given(eset) {
          return false, false, 0, {}, {}, true;
        }
        NotYetPlaced(n, socks, sockets.Keys - rest, fd, op, rset, wset, blocking);
        var k, r, w, b := WatchSocket(fd, fd in Given(rset), fd in Given(wset), mayBlock, op);
        PassTwoMore(n, Network(), newR, newW, ctx, doesBlock, rest, fd, op, rset, wset, eset, blocking, k, r, w, b);
        newR, newW := if r then newR + {fd} else newR, if w then newW + {fd} else newW;
        ctx := ctx + (if w then 1 else 0) + (if r then 1 else 0);
        mayBlock, doesBlock := mayBlock && !w && !r, doesBlock || b;
        socks := socks[sockets[fd] := k];
        rest := rest - {fd};
      }
      PassTwoDone(n, socks, newR, newW, ctx, doesBlock, op, rset, wset, eset, blocking);
    }

    /** One netlink socket of pass 2: is there a reply, or does it get a closure? */
    method WatchNetlink(fd: Fd, blocking: bool, op: OpId) returns (readable: bool)
      requires Linked() && KnownNl(Network(), fd)
      modifies this`nls, netlinkSockets
      ensures Linked()
      ensures readable <==> old(nls)[netlinks[fd]].replies != []
      ensures nls == if blocking && !readable
                     then old(nls)[netlinks[fd] := old(nls)[netlinks[fd]].(recv := SelectNl(op, fd))] else old(nls)
    {
      var i := netlinks[fd];
      readable := netlinkSockets[i].HasData();
      if blocking && !readable {
        netlinkSockets[i].SetRecvCallback(SelectNl(op, fd));
        nls := nls[i := nls[i].(recv := SelectNl(op, fd))];
      }
    }

    /** The netlink sockets of pass 2; `before` are the sockets found readable. */
    method WatchNetlinks(rset: Option<set<Fd>>, blocking: bool, op: OpId, before: set<Fd>)
      returns (mayBlock: bool, doesBlock: bool, more: nat, newR: set<Fd>)
      requires FdOk(Network()) && Linked() && before !! netlinks.Keys
      requires blocking ==> forall f :: f in Given(rset) ==> !ReadableNl(Network(), f)
      modifies this`nls, netlinkSockets
      ensures Linked()
      ensures mayBlock == blocking
      ensures newR == before + ReadyRNetlinks(old(Network()), rset) && |newR| == |before| + more
      ensures nls == if blocking then WatchedNls(old(Network()), op, rset) else old(nls)
      ensures doesBlock <==> blocking && exists f :: f in netlinks && f in Given(rset)
    {
      ghost var n := Network();
      mayBlock, doesBlock, more, newR := blocking, false, 0, before;
      var rest := netlinks.Keys;
      while rest != {}
        invariant mayBlock == blocking && Linked()
        invariant NlPass(n, nls, before, newR, more, doesBlock, rest, op, rset, blocking)
      {
        var fd := Least(rest);
        ghost var i := netlinks[fd];
        ghost var q := n.nls[i].(recv := if blocking && fd in Given(rset) then SelectNl(op, fd) else n.nls[i].recv);
        NlPassMore(n, nls, before, newR, more, doesBlock, rest, fd, op, rset, blocking, q);
        assert q == nls[i] ==> nls[i := q] == nls;
        if fd in Given(rset) {
          var readable := WatchNetlink(fd, mayBlock, op);
          if readable {
            newR, mayBlock, more := newR + {fd}, false, more + 1;
          } else if mayBlock {
            doesBlock := true;
          }
        }
        rest := rest - {fd};
      }
      NlPassDone(n, nls, before, newR, more, doesBlock, op, rset, blocking);
    }

    // ---- select: the call -----------------------------------------------------------------------

    /** Pass 1 as a whole: may the call still block? */
    method MayStillBlock(rset: Option<set<Fd>>, wset: Option<set<Fd>>, eset: Option<set<Fd>>, timeout: Option<Timeval>)
      returns (mayBlock: bool, unsupported: bool)
      requires FdOk(Network()) && Linked()
      ensures unsupported ==> SelectFails(Network(), rset, wset, eset, timeout)
      ensures !unsupported && SelectFails(Network(), rset, wset, eset, timeout) ==>
                exists f :: f in Given(eset) && f in sockets
      ensures !unsupported ==> (mayBlock <==> MayBlock(timeout) && NothingReady(Network(), rset, wset))
    {
      FailsIff(Network(), rset, wset, eset, timeout);
      ReadySplit(Network(), rset, wset);
      mayBlock, unsupported := MayBlock(timeout), false;
      if mayBlock {
        var hasData;
        hasData, unsupported := ScanSockets(rset, wset, eset);
        if !unsupported && !hasData {
          hasData, unsupported := ScanNetlinks(rset, eset);
        }
        mayBlock := mayBlock && !hasData;
      }
    }

    /** Leaves the calling thread waiting in operation |ops|, whose closures are in place. */
    method BlockCaller(rset: Option<set<Fd>>, wset: Option<set<Fd>>, timeout: Option<Timeval>)
      modifies this`ops, this`events, this`nextEvent, this`tracees
      ensures View() == Enlisted(old(View()), rset, wset, timeout)
    {
      var op := |ops|;
      ops := ops + [SelectOp(pid, rset.Some?, wset.Some?, WatchR(Tables(), rset), WatchW(Tables(), wset), false,
                             if timeout.Some? then Some(nextEvent) else None)];
      if timeout.Some? {
        Schedule(Later(now, timeout.value.sec, timeout.value.usec * 1000), SelectTimeout(op));
      }
      Record(pid, InSelect(op));
    }

    /** Pass 2 as a whole: what is ready, or the closures in the slots of what is watched. */
    method Collect(rset: Option<set<Fd>>, wset: Option<set<Fd>>, eset: Option<set<Fd>>, blocking: bool)
      returns (mayBlock: bool, doesBlock: bool, ctx: nat, newR: set<Fd>, newW: set<Fd>, unsupported: bool)
      requires FdOk(Network()) && Linked() && (blocking ==> NothingReady(Network(), rset, wset))
      modifies this`socks, this`nls, netlinkSockets
      ensures Linked()
      ensures unsupported <==> exists f :: f in Given(eset) && f in sockets
      ensures !unsupported ==>
                mayBlock == blocking && (doesBlock <==> blocking && !NothingWatched(Tables(), rset, wset)) &&
                ctx == |newR| + |newW| &&
                newR == ReadyR(old(Network()), rset) && newW == ReadyW(old(Network()), wset)
      ensures !unsupported ==>
                Network() == if blocking
                             then WatchedNet(old(Network()), |ops|, WatchR(Tables(), rset), WatchW(Tables(), wset))
                             else old(Network())
    {
      ghost var n := Network();
      FirstHalf(n, rset, wset, blocking);
      mayBlock, doesBlock, ctx, newR, newW, unsupported := WatchSockets(rset, wset, eset, blocking, |ops|);
      if unsupported {
        return;
      }
      mayBlock, doesBlock, ctx, newR := CollectNetlinks(n, rset, wset, mayBlock, doesBlock, ctx, newR, newW);
    }

    /** Pass 2 after the sockets, which were in state `n` before it. */
    method CollectNetlinks(ghost n: Net, rset: Option<set<Fd>>, ghost wset: Option<set<Fd>>, blocking: bool,
                           socketBlocks: bool, count: nat, fromSockets: set<Fd>, ghost newW: set<Fd>)
      returns (mayBlock: bool, doesBlock: bool, ctx: nat, newR: set<Fd>)
      requires Linked() && FdOk(n) && Network().(socks := n.socks) == n && (blocking ==> NothingReady(n, rset, wset))
      requires socks == if blocking then WatchedSocks(n, |ops|, rset, wset) else n.socks
      requires fromSockets == ReadyRSockets(n, rset) && count == |fromSockets| + |newW|
      requires socketBlocks <==> blocking && exists f :: f in n.fds.sockets && (f in Given(rset) || f in Given(wset))
      modifies this`nls, netlinkSockets
      ensures Linked()
      ensures mayBlock == blocking && (doesBlock <==> blocking && !NothingWatched(n.fds, rset, wset))
      ensures newR == ReadyR(n, rset) && ctx == |newR| + |newW|
      ensures Network() == if blocking then WatchedNet(n, |ops|, WatchR(n.fds, rset), WatchW(n.fds, wset)) else n
    {
      SecondHalf(n, socks, |ops|, rset, wset, blocking);
      var more, moreBlock;
      mayBlock, moreBlock, more, newR := WatchNetlinks(rset, blocking, |ops|, fromSockets);
      CollectForm(n, socks, nls, |ops|, rset, wset, blocking, socketBlocks, moreBlock, fromSockets, newR);
      doesBlock, ctx := socketBlocks || moreBlock, count + more;
    }

    /** Both passes: they agree on whether the call blocks, and closures are left only if it does. */
    method BothPasses(rset: Option<set<Fd>>, wset: Option<set<Fd>>, eset: Option<set<Fd>>, timeout: Option<Timeval>)
      returns (mayBlock: bool, doesBlock: bool, ctx: nat, newR: set<Fd>, newW: set<Fd>, unsupported: bool)
      requires FdOk(Network()) && Linked()
      modifies this`socks, this`nls, netlinkSockets
      ensures Linked()
      ensures unsupported <==> SelectFails(old(Network()), rset, wset, eset, timeout)
      ensures !unsupported ==>
                Passed(old(Network()), Network(), |ops|, rset, wset, timeout, mayBlock, doesBlock, ctx, newR, newW)
    {
      ghost var n := Network();
      FailsIff(n, rset, wset, eset, timeout);
      NothingToDo(n, |ops|, rset, wset);
      doesBlock, ctx, newR, newW := false, 0, {}, {};
      mayBlock, unsupported := MayStillBlock(rset, wset, eset, timeout);
      if !unsupported {
        mayBlock, doesBlock, ctx, newR, newW, unsupported := Collect(rset, wset, eset, mayBlock);
      }
    }

    /** The call comes to what the ready and the watched sets say. */
    method HandleSelect(rset: Option<set<Fd>>, wset: Option<set<Fd>>, eset: Option<set<Fd>>, timeout: Option<Timeval>,
                        ans: Answer)
      returns (code: Code)
      requires FdOk(Network()) && Linked()
      modifies this`socks, this`nls, this`ops, this`events, this`nextEvent, this`tracees, this`halted, netlinkSockets
      ensures Linked()
      ensures code == Sim.HandleSelect(old(View()), old(pid), rset, wset, eset, timeout, ans).code
      ensures code != Error ==> View() == Sim.HandleSelect(old(View()), old(pid), rset, wset, eset, timeout, ans).s
    {
      ghost var s := View();
      var mayBlock, doesBlock, ctx, newR, newW, unsupported := BothPasses(rset, wset, eset, timeout);
      if unsupported {
        return Error;
      }
      assert View().(net := s.net) == s;
      code := ConcludeSelect(s, mayBlock, doesBlock, ctx, newR, newW, rset, wset, eset, timeout, ans);
    }

    /** After the passes, which started from state `s`: the calling thread waits, or is told what is ready. */
    method ConcludeSelect(ghost s: State, mayBlock: bool, doesBlock: bool, ctx: nat, newR: set<Fd>, newW: set<Fd>,
                          rset: Option<set<Fd>>, wset: Option<set<Fd>>, eset: Option<set<Fd>>, timeout: Option<Timeval>,
                          ans: Answer)
      returns (code: Code)
      requires s == View().(net := s.net) && !SelectFails(s.net, rset, wset, eset, timeout)
      requires Passed(s.net, Network(), |ops|, rset, wset, timeout, mayBlock, doesBlock, ctx, newR, newW)
      modifies this`ops, this`events, this`nextEvent, this`tracees, this`halted
      ensures Res(View(), code) == Sim.HandleSelect(s, s.pid, rset, wset, eset, timeout, ans)
    {
      SelectForm(s, Network(), rset, wset, eset, timeout, ans, mayBlock, doesBlock, ctx, newR, newW);
      assert s.(net := Network()) == View();
      // the case of a call that must not block and yet has left closures is never reached
      assert mayBlock || !doesBlock;
      if mayBlock && doesBlock {
        BlockCaller(rset, wset, timeout);
        return Delayed;
      }
      Fake(pid, Selected(ctx, if rset.Some? then Some(newR) else None, if wset.Some? then Some(newW) else None),
           ans.stray);
      return Success;
    }

    // ---- Clocks, sleep and threads --------------------------------------------------------------

    method HandleNanoSleep(sec: nat, nsec: nat) returns (code: Code)
      modifies this`events, this`nextEvent, this`tracees
      ensures View() == Sim.HandleNanoSleep(old(View()), old(pid), sec, nsec).s
      ensures code == Delayed
    {
      var e := nextEvent;
      Schedule(Later(now, sec, nsec), SleepDone(pid));
      Record(pid, InSleep(e));
      return Delayed;
    }

    /** Stores a reading without taking the thread anywhere. */
    method Store(result: Result)
      modifies this`tracees
      ensures View() == StoreOnly(old(View()), pid, result).s
    {
      if pid in tracees && tracees[pid].stop.AtExit? {
        tracees := tracees[pid := tracees[pid].(stop := AtExit(result))];
      }
    }

    method HandleClock(cpuClock: bool, result: Result, ans: Answer) returns (code: Code)
      modifies this`tracees, this`halted
      ensures var r := if cpuClock then Answered(old(View()), pid, Value(-1), Failure, ans)
                       else StoreOnly(old(View()), pid, result);
              View() == r.s && code == r.code
    {
      if cpuClock {
        Fake(pid, Value(-1), ans.stray);
        return Failure;
      }
      Store(result);
      return Success;
    }

    method HandleClone(ans: Answer) returns (code: Code)
      modifies this`events, this`nextEvent, this`tracees, this`halted
      ensures View() == Sim.HandleClone(old(View()), old(pid), ans).s && code == Success
    {
      Fake(pid, Value(ans.tid), ans.stray);
      var e := nextEvent;
      ghost var s1 := View();
      tracees := tracees[ans.tid := Tracee(AtExit(Kernel), InFlight)];
      assert View() == NewThread(s1, ans.tid);
      Schedule(Later(now, 0, 100), Before(ans.tid));
      Record(ans.tid, Resumes(e));
      return Success;
    }

    // ---- Connections that arrive -----------------------------------------------------------------

    method ConnectionArrived(sid: SockId, ans: Answer)
      requires sid < |socks|
      modifies this`fakeAcceptedSockets, this`availableFDs, this`sockets, this`tcpSockets, this`connectedSockets,
               this`socks, this`ops, this`events, this`nextEvent, this`tracees, this`halted
      ensures View() == OnConnection(old(View()), sid, ans)
    {
      var a, newSid := socks[sid].accept, |socks|;
      if a.SelectAccept? && a.op < |ops| && !ops[a.op].handled && (a.fd !in sockets || sockets[a.fd] >= |socks|) {
        halted := true;
        return;
      }
      if a.AcceptWait? && availableFDs == {} {
        halted := true;
        return;
      }
      NewSocket();
      match a {
        case NoAccept =>
        case DefaultAccept(fd) =>
          fakeAcceptedSockets := fakeAcceptedSockets[fd := newSid];
        case SelectAccept(op, fd) =>
          if op < |ops| && !ops[op].handled {
            PendConnection(fd, newSid);
            FinishSelect(op, ops[op].pid, OneRead(ops[op], fd), ans.stray);
          }
        case AcceptWait(p, fd) =>
          TakeConnection(newSid, pid, ans);
          Reschedule(p);
      }
    }

    /** The socket of a connection that has arrived. */
    method NewSocket()
      modifies this`socks
      ensures View() == old(View()).(net := old(View()).net.(socks := old(socks) + [FRESH_SOCK]))
    {
      socks := socks + [FRESH_SOCK];
    }

    /** The connection is stored and the listener's callback taken away. */
    method PendConnection(fd: Fd, sock: SockId)
      requires fd in sockets && sockets[fd] < |socks|
      modifies this`fakeAcceptedSockets, this`socks
      ensures var s := old(View());
              View() == SetSock(WithFds(s, s.net.fds.(fakeAccepted := s.net.fds.fakeAccepted[fd := sock])),
                                s.net.fds.sockets[fd], s.net.socks[s.net.fds.sockets[fd]].(accept := NoAccept))
    {
      fakeAcceptedSockets := fakeAcceptedSockets[fd := sock];
      SetSocket(sockets[fd], socks[sockets[fd]].(accept := NoAccept));
    }

    // ---- Dispatch ----------------------------------------------------------------------------------

    method HandleTransfer(c: Call, ans: Answer) returns (code: Code)
      requires FdOk(Network()) && (c.Read? || c.RecvFrom? || c.Write?)
      modifies this`socks, this`tracees, this`events, this`nextEvent, this`halted
      ensures Res(View(), code) == Sim.Handle(old(View()), old(pid), c, ans)
    {
      if c.Read? {
        code := HandleRead(c.fd, c.count, ans);
        return;
      }
      if c.RecvFrom? {
        code := HandleRecvFrom(c.fd, ans);
        return;
      }
      code := HandleWrite(c.fd, c.count, ans);
    }

    method HandleFile(c: Call, ans: Answer) returns (code: Code)
      requires c.Open? || c.Close? || c.Fcntl?
      modifies this`sockets, this`tcpSockets, this`connectedSockets, this`isListenTcpSocket, this`nonblockingSockets,
               this`netlinks, this`randomFds, this`availableFDs, this`events, this`nextEvent, this`tracees, this`halted
      ensures Res(View(), code) == Sim.Handle(old(View()), old(pid), c, ans)
    {
      if c.Open? {
        code := HandleOpen(c.random, ans);
        return;
      }
      if c.Close? {
        code := HandleClose(c.fd, ans);
        return;
      }
      code := HandleFcntl(c.fd, c.cmd, ans);
    }

    method HandleProcess(c: Call, ans: Answer) returns (code: Code)
      requires c.NanoSleep? || c.Clone?
      modifies this`events, this`nextEvent, this`tracees, this`halted
      ensures Res(View(), code) == Sim.Handle(old(View()), old(pid), c, ans)
    {
      if c.NanoSleep? {
        code := HandleNanoSleep(c.sec, c.nsec);
      } else {
        code := HandleClone(ans);
      }
    }

    method HandleConnection(c: Call, ans: Answer) returns (code: Code)
      requires FdOk(Network()) && (c.Listen? || c.Connect? || c.Accept?)
      modifies this`isListenTcpSocket, this`fakeAcceptedSockets, this`availableFDs, this`sockets, this`tcpSockets,
               this`connectedSockets, this`socks, this`events, this`nextEvent, this`tracees, this`halted
      ensures Res(View(), code) == Sim.Handle(old(View()), old(pid), c, ans)
    {
      if c.Listen? {
        code := HandleListen(c.fd, ans);
        return;
      }
      if c.Connect? {
        code := HandleConnect(c.fd, c.inet, ans);
        return;
      }
      code := HandleAccept(c.fd, ans);
    }

    /** The calls that have to do with netlink sockets. */
    method HandleMessage(c: Call, ans: Answer) returns (code: Code)
      requires FdOk(Network()) && Linked() && (c.SendTo? || c.SendMsg? || c.RecvMsg? || c.Socket? || c.Select?)
      modifies this, router, netlinkSockets
      ensures code == Sim.Handle(old(View()), old(pid), c, ans).code && Grown()
      ensures code != Error ==> Linked() && View() == Sim.Handle(old(View()), old(pid), c, ans).s
    {
      match c {
        case SendTo(fd, buf, flags, dest) => code := HandleSendTo(fd, buf, flags, dest, ans);
        case SendMsg(fd, iov) => code := HandleSendMsg(fd, iov, ans);
        case RecvMsg(fd, n) => code := HandleRecvMsg(fd, n, ans);
        case Socket(family, kind, route) => code := HandleSocket(family, kind, route, ans);
        case Select(r, w, e, t) => code := HandleSelect(r, w, e, t, ans);
      }
    }

    method HandleTime(c: Call, ans: Answer) returns (code: Code)
      requires c.GetTimeOfDay? || c.ClockGetTime? || c.ClockGetRes?
      modifies this`tracees, this`halted
      ensures Res(View(), code) == Sim.Handle(old(View()), old(pid), c, ans)
    {
      match c {
        case GetTimeOfDay => Fake(pid, MicroClock(now), ans.stray); code := Success;
        case ClockGetTime(cpu) => code := HandleClock(cpu, NanoClock(now), ans);
        case ClockGetRes(cpu) => code := HandleClock(cpu, Clock(0, 10), ans);
      }
    }

    method HandlePlain(c: Call, ans: Answer) returns (code: Code)
      requires c.PassThrough? || c.Constant? || c.Exit? || c.ExitGroup? || c.Unsupported?
      modifies this`tracees, this`halted
      ensures Res(View(), code) == Sim.Handle(old(View()), old(pid), c, ans)
    {
      match c {
        case PassThrough(_) => Fake(pid, Kernel, ans.stray); code := Success;
        case Constant(_, v) => Fake(pid, Value(v), ans.stray); code := Success;
        case Exit => code := Success;
        case ExitGroup => code := SystemExit;
        case Unsupported => code := Error;
      }
    }

    /** Calls that have nothing to do with descriptors. */
    method HandleQuick(c: Call, ans: Answer) returns (code: Code)
      requires c.PassThrough? || c.Constant? || c.Exit? || c.ExitGroup? || c.Unsupported? || c.NanoSleep? || c.Clone? ||
               c.GetTimeOfDay? || c.ClockGetTime? || c.ClockGetRes?
      modifies this`events, this`nextEvent, this`tracees, this`halted
      ensures Res(View(), code) == Sim.Handle(old(View()), old(pid), c, ans)
    {
      if c.NanoSleep? || c.Clone? {
        code := HandleProcess(c, ans);
      } else if c.GetTimeOfDay? || c.ClockGetTime? || c.ClockGetRes? {
        code := HandleTime(c, ans);
      } else {
        code := HandlePlain(c, ans);
      }
    }

    /** Calls on other descriptors than netlink sockets. */
    method HandleDescriptor(c: Call, ans: Answer) returns (code: Code)
      requires FdOk(Network()) && (c.Read? || c.RecvFrom? || c.Write? || c.Open? || c.Close? || c.Fcntl? || c.Listen? ||
                                   c.Connect? || c.Accept?)
      modifies this
      ensures NetlinkPart() == old(NetlinkPart())
      ensures Res(View(), code) == Sim.Handle(old(View()), old(pid), c, ans)
    {
      if c.Read? || c.RecvFrom? || c.Write? {
        code := HandleTransfer(c, ans);
        return;
      }
      if c.Open? || c.Close? || c.Fcntl? {
        code := HandleFile(c, ans);
        return;
      }
      code := HandleConnection(c, ans);
    }

    method Handle(c: Call, ans: Answer) returns (code: Code)
      requires FdOk(Network()) && Linked()
      modifies this, router, netlinkSockets
      ensures code == Sim.Handle(old(View()), old(pid), c, ans).code && Grown()
      ensures code != Error ==> Linked() && View() == Sim.Handle(old(View()), old(pid), c, ans).s
    {
      if c.SendTo? || c.SendMsg? || c.RecvMsg? || c.Socket? || c.Select? {
        code := HandleMessage(c, ans);
      } else if c.Read? || c.RecvFrom? || c.Write? || c.Open? || c.Close? || c.Fcntl? || c.Listen? || c.Connect? ||
                c.Accept? {
        code := HandleDescriptor(c, ans);
      } else {
        code := HandleQuick(c, ans);
      }
    }

    /** The thread has moved to its next stop; which call is it at? */
    method WaitForSyscall(p: Pid, next: Call) returns (c: Call)
      requires p in tracees
      modifies this`pid, this`tracees
      ensures View() == Arrive(old(View()), p, next) && c == Caught(old(View()), p, next)
    {
      pid := p;
      var stop := tracees[p].stop;
      if stop.AtExit? {
        c := next;
        tracees := tracees[p := Tracee(AtEntry(next), InFlight)];
      } else {
        c := stop.call;
        tracees := tracees[p := Tracee(AtExit(Kernel), InFlight)];
      }
    }

    method Observe(c: Call)
      modifies pollLoopDetector
      ensures View() == ObserveCall(old(View()), c)
    {
      if app.detection {
        var _ := pollLoopDetector.HandleSystemCall(SysNr(c));
      }
    }

    /** From the stop at a call to the status code of its handler. */
    method Dispatch(p: Pid, next: Call, ans: Answer)
      requires FdOk(Network()) && Linked() && p in tracees
      modifies this, pollLoopDetector, router, netlinkSockets
      ensures Grown() && (!halted ==> Linked())
      ensures var c := Caught(old(View()), p, next);
              var r := Sim.Handle(ObserveCall(Arrive(old(View()), p, next), c), p, c, ans);
              Agree(View(), Sim.ProcessStatusCode(r.s, r.code, p))
    {
      var c := WaitForSyscall(p, next);
      Observe(c);
      Serve(p, c, ans);
    }

    /** Runs the handler and acts on its status. */
    method Serve(p: Pid, c: Call, ans: Answer)
      requires FdOk(Network()) && Linked() && p == pid
      modifies this, router, netlinkSockets
      ensures Grown() && (!halted ==> Linked())
      ensures var r := Sim.Handle(old(View()), p, c, ans); Agree(View(), Sim.ProcessStatusCode(r.s, r.code, p))
    {
      var res := Handle(c, ans);
      ProcessStatusCode(res, p);
    }

    /** The thread is not there any more, or has just left. */
    method Gone(p: Pid)
      modifies this`pid, this`tracees
      ensures View() == old(View()).(pid := p, tracees := old(tracees) - {p})
    {
      pid, tracees := p, tracees - {p};
    }

    method HandleSyscallBefore(p: Pid, next: Call, ans: Answer)
      requires FdOk(Network()) && Linked()
      modifies this, pollLoopDetector, router, netlinkSockets
      ensures Grown() && (!halted ==> Linked())
      ensures Agree(View(), Sim.HandleSyscallBefore(old(View()), p, next, ans))
    {
      if p !in tracees || tracees[p].stop == AtEntry(Exit) {
        Gone(p);
      } else {
        Dispatch(p, next, ans);
      }
    }

    // ---- The simulator's side ------------------------------------------------------------------------

    /** Takes an event from the queue; the clock moves to its time. */
    method Pop(e: EvId) returns (what: What)
      requires e in events
      modifies this`now, this`events
      ensures View() == old(View()).(now := old(events)[e].at, events := old(events) - {e}) &&
              what == old(events)[e].what
    {
      what := events[e].what;
      now, events := events[e].at, events - {e};
    }

    method SelectTimesOut(op: OpId, stray: Call)
      modifies this`ops, this`events, this`nextEvent, this`tracees, this`halted
      ensures View() == if op >= |old(ops)| || old(ops)[op].handled then old(View())
                        else Sim.FinishSelect(old(View()), op, old(ops)[op].pid, SelectTimedOut, stray)
    {
      if op < |ops| && !ops[op].handled {
        FinishSelect(op, ops[op].pid, SelectTimedOut, stray);
      }
    }

    method WakeUp(p: Pid, stray: Call)
      modifies this`events, this`nextEvent, this`tracees, this`halted
      ensures View() == Resume(Sim.Fake(old(View()), p, Value(0), stray), p)
    {
      Fake(p, Value(0), stray);
      Reschedule(p);
    }

    /** Runs a scheduled event. */
    method Fire(e: EvId, next: Call, ans: Answer)
      requires FdOk(Network()) && Linked() && e in events
      modifies this, pollLoopDetector, router, netlinkSockets
      ensures Grown() && (!halted ==> Linked())
      ensures Agree(View(), Next(old(View()), Step(Action.Fire(e, next), ans)))
    {
      var what := Pop(e);
      if what.Before? {
        HandleSyscallBefore(what.pid, next, ans);
      } else {
        Timer(what, ans.stray);
      }
    }

    /** A timeout, the end of a sleep, or the clean-up of a socket. */
    method Timer(what: What, stray: Call)
      requires !what.Before?
      modifies this`ops, this`events, this`nextEvent, this`tracees, this`halted
      ensures View() == TimerFired(old(View()), what, stray)
    {
      match what {
        case SelectTimeout(op) => SelectTimesOut(op, stray);
        case SleepDone(p) => WakeUp(p, stray);
        case SocketCleanup(_) =>
      }
    }

    method Perform(step: Step)
      requires FdOk(Network()) && Linked()
      modifies this, pollLoopDetector, router, netlinkSockets
      ensures Grown() && (!halted ==> Linked())
      ensures Agree(View(), Next(old(View()), step))
    {
      if step.act.Fire? {
        if step.act.e in events {
          Fire(step.act.e, step.act.next, step.ans);
        }
      } else if step.act.sid < |socks| {
        now := step.act.at;
        Callback(step.act, step.ans);
      }
    }

    /** ns-3 runs a callback of a socket. */
    method Callback(act: Action, ans: Answer)
      requires !act.Fire? && act.sid < |socks|
      modifies this
      ensures NetlinkPart() == old(NetlinkPart())
      ensures View() == Called(old(View()), act, ans)
    {
      if act.Data? {
        SocketReceived(act.sid, act.rx, ans);
      } else if act.Space? {
        SpaceAvailable(act.sid, act.tx, ans);
      } else if act.Connection? {
        ConnectionArrived(act.sid, ans);
      } else {
        ConnectionEnded(act.sid, act.ok, ans);
      }
    }

    /** One step of a run: the rest of the run is left to do. */
    method Advance(ghost s: State, steps: seq<Step>, i: nat)
      requires i < |steps| && !halted && Inv(View()) && Linked() && Sound(View(), steps[i..])
      requires RunAll(s, steps) == RunAll(View(), steps[i..])
      modifies this, pollLoopDetector, router, netlinkSockets
      ensures Grown() && (!halted ==> Linked())
      ensures !halted ==>
                Inv(View()) && Sound(View(), steps[i + 1..]) && RunAll(s, steps) == RunAll(View(), steps[i + 1..])
      ensures halted ==> RunAll(s, steps).halted
    {
      ghost var was := View();
      assert steps[i..][0] == steps[i] && steps[i..][1..] == steps[i + 1..];
      if !Next(was, steps[i]).halted {
        StepKeeps(was, steps[i]);
      }
      RunHalts(Next(was, steps[i]), steps[i + 1..]);
      Perform(steps[i]);
    }

    /** A whole run: the object goes through the states that the run of the model goes through. */
    method Run(steps: seq<Step>)
      requires Inv(View()) && Linked() && Sound(View(), steps)
      modifies this, pollLoopDetector, router, netlinkSockets
      ensures Agree(View(), RunAll(old(View()), steps))
      ensures halted || (Inv(View()) && Linked())
    {
      ghost var s := View();
      var i := 0;
      assert steps[0..] == steps;
      while i < |steps| && !halted
        invariant i <= |steps| && Grown() && (!halted ==> Linked())
        invariant !halted ==> Inv(View()) && Sound(View(), steps[i..]) && RunAll(s, steps) == RunAll(View(), steps[i..])
        invariant halted ==> RunAll(s, steps).halted
      {
        Advance(s, steps, i);
        i := i + 1;
      }
    }
  }
}
