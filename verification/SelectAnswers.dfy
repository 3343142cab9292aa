/** What select does with the sets and the timeout it is given, in terms of what is open and what is there. */
module SelectAnswers {
  import opened Base
  import opened Sim
  import opened Answers
  import SR = SelectRequests

  /** Among the simulator's descriptors. */
  predicate Open(t: FdTable, f: Fd, write: bool) {
    f in t.sockets || (!write && f in t.netlinks)
  }

  /** Data, a connection or a reply is there; for writing: room. */
  predicate ThereIs(n: Net, f: Fd, write: bool) {
    if write then Known(n, f) && n.socks[n.fds.sockets[f]].tx > 0
    else (Known(n, f) && (n.socks[n.fds.sockets[f]].rx > 0 || f in n.fds.fakeAccepted)) ||
         (KnownNl(n, f) && n.nls[n.fds.netlinks[f]].replies != [])
  }

  /** The call asks for `f`. */
  predicate Asks(c: Call, f: Fd, write: bool)
    requires c.Select?
  {
    if write then c.wset.Some? && f in c.wset.value else c.rset.Some? && f in c.rset.value
  }

  /** No exception descriptor is one of the simulator's. */
  predicate NoException(t: FdTable, c: Call)
    requires c.Select?
  {
    c.eset.None? || forall f :: f in c.eset.value ==> f !in t.sockets && f !in t.netlinks
  }

  /** Something is asked for that is open, and nothing that is asked for is there. */
  ghost predicate Nothing(n: Net, c: Call)
    requires c.Select?
  {
    (exists f, write :: Asks(c, f, write) && Open(n.fds, f, write)) &&
    (forall f, write :: Asks(c, f, write) ==> !ThereIs(n, f, write))
  }

  /** The time the call gives it, in microseconds, is more than none; or there is no limit. */
  predicate HasTime(c: Call)
    requires c.Select?
  {
    c.timeout.None? || c.timeout.value.sec * 1000000 + c.timeout.value.usec > 0
  }

  lemma NothingMeans(n: Net, c: Call)
    requires c.Select? && Nothing(n, c)
    ensures NothingReady(n, c.rset, c.wset) && !NothingWatched(n.fds, c.rset, c.wset)
  {
    var f, write :| Asks(c, f, write) && Open(n.fds, f, write);
    assert if write then f in WatchW(n.fds, c.wset) else f in WatchR(n.fds, c.rset);
    assert forall f :: f in ReadyR(n, c.rset) ==> Asks(c, f, false) && ThereIs(n, f, false);
    assert forall f :: f in ReadyW(n, c.wset) ==> Asks(c, f, true) && ThereIs(n, f, true);
  }

  lemma ExceptionMeans(n: Net, c: Call)
    requires c.Select? && NoException(n.fds, c)
    ensures !SelectFails(n, c.rset, c.wset, c.eset, c.timeout)
  {
  }

  /** Nothing reported, in the sets that were passed. */
  function Empty(c: Call): Result
    requires c.Select?
  {
    Selected(0, if c.rset.Some? then Some({}) else None, if c.wset.Some? then Some({}) else None)
  }

  /**
   * With nothing there the thread waits, at the entry of the call, if and only if there is time: no timeout, or one of
   * at least a microsecond. Otherwise it is told so at once. A timeout is due exactly the seconds and microseconds
   * given after the call.
   */
  lemma WaitsIffTime(s: State, p: Pid, c: Call, ans: Answer)
    requires c.Select? && p in s.tracees && s.tracees[p].stop == AtEntry(c) && NoException(s.net.fds, c) &&
             Nothing(s.net, c)
    ensures var r := Handle(s, p, c, ans);
            p in r.s.tracees && r.code in {Delayed, Success} &&
            (r.code == Delayed <==> HasTime(c)) && (r.s.tracees[p].stop == AtEntry(c) <==> HasTime(c)) &&
            (!HasTime(c) ==> r.s.tracees[p].stop == AtExit(Empty(c))) &&
            (HasTime(c) ==>
               |r.s.ops| == |s.ops| + 1 &&
               if c.timeout.None? then r.s.events == s.events
               else
                 var due := SR.DueAfter(s.now, c.timeout.value);
                 r.s.events == s.events[s.nextEvent := Event(due, SelectTimeout(|s.ops|))])
  {
    NothingMeans(s.net, c);
    ExceptionMeans(s.net, c);
    assert HasTime(c) <==> MayBlock(c.timeout);
  }

  /**
   * The result reports just what is there of what was asked for, and how many they are, in the sets that were passed.
   */
  ghost predicate Reports(n: Net, c: Call, r: Result)
    requires c.Select?
  {
    r.Selected? && (r.rset.Some? <==> c.rset.Some?) && (r.wset.Some? <==> c.wset.Some?) &&
    (forall f :: r.rset.Some? && f in r.rset.value <==> Asks(c, f, false) && ThereIs(n, f, false)) &&
    (forall f :: r.wset.Some? && f in r.wset.value <==> Asks(c, f, true) && ThereIs(n, f, true)) &&
    r.count == (if r.rset.Some? then |r.rset.value| else 0) + if r.wset.Some? then |r.wset.value| else 0
  }

  lemma AnswerReports(n: Net, c: Call)
    requires c.Select?
    ensures Reports(n, c, SelectAnswer(n, c.rset, c.wset))
  {
    assert c.rset.None? ==> ReadyR(n, c.rset) == {};
    assert c.wset.None? ==> ReadyW(n, c.wset) == {};
  }

  lemma AnswersNow(s: State, e: EvId, p: Pid, c: Call, ans: Answer)
    requires c.Select? && Enters(s, e, p, c, ans) && NoException(s.net.fds, c)
    requires !NothingReady(s.net, c.rset, c.wset) || NothingWatched(s.net.fds, c.rset, c.wset)
    ensures Then(s, e, c, ans) == Told(s, e, p, c, SelectAnswer(s.net, c.rset, c.wset), s.net)
  {
    ExceptionMeans(s.net, c);
    NotWaiting(Entered(s, e, p, c), p, c, ans);
    TellsWith(s, e, p, c, ans, SelectAnswer(s.net, c.rset, c.wset), Success, s.net);
  }

  lemma NotWaiting(d: State, p: Pid, c: Call, ans: Answer)
    requires c.Select? && !SelectFails(d.net, c.rset, c.wset, c.eset, c.timeout)
    requires !NothingReady(d.net, c.rset, c.wset) || NothingWatched(d.net.fds, c.rset, c.wset)
    ensures Handle(d, p, c, ans) == Answered(d.(net := d.net), p, SelectAnswer(d.net, c.rset, c.wset), Success, ans)
  {
  }

  /** With something there the thread is told at once. */
  lemma ToldWhatIsThere(s: State, e: EvId, p: Pid, c: Call, ans: Answer)
    requires c.Select? && Enters(s, e, p, c, ans) && NoException(s.net.fds, c)
    requires exists f, write :: Asks(c, f, write) && ThereIs(s.net, f, write)
    ensures exists r :: Then(s, e, c, ans) == Told(s, e, p, c, r, s.net) && Reports(s.net, c, r)
  {
    var f, write :| Asks(c, f, write) && ThereIs(s.net, f, write);
    assert if write then f in ReadyW(s.net, c.wset) else f in ReadyR(s.net, c.rset);
    AnswersNow(s, e, p, c, ans);
    AnswerReports(s.net, c);
  }

  /** With nothing asked for that is one of the simulator's the thread is told so at once, whatever the timeout. */
  lemma ToldOfNothing(s: State, e: EvId, p: Pid, c: Call, ans: Answer)
    requires c.Select? && Enters(s, e, p, c, ans) && NoException(s.net.fds, c)
    requires forall f, write :: Asks(c, f, write) ==> !Open(s.net.fds, f, write)
    ensures Then(s, e, c, ans) == Told(s, e, p, c, Empty(c), s.net)
  {
    NoneWatched(s.net.fds, c);
    AnswersNow(s, e, p, c, ans);
    EmptyAnswer(s.net, c);
  }

  lemma NoneWatched(t: FdTable, c: Call)
    requires c.Select? && forall f, write :: Asks(c, f, write) ==> !Open(t, f, write)
    ensures WatchR(t, c.rset) == {} && WatchW(t, c.wset) == {}
  {
    forall f ensures f !in WatchR(t, c.rset) && f !in WatchW(t, c.wset) {
      assert Asks(c, f, false) ==> !Open(t, f, false);
      assert Asks(c, f, true) ==> !Open(t, f, true);
    }
  }

  lemma EmptyAnswer(n: Net, c: Call)
    requires c.Select? && WatchR(n.fds, c.rset) == {} && WatchW(n.fds, c.wset) == {}
    ensures SelectAnswer(n, c.rset, c.wset) == Empty(c)
  {
    assert ReadyR(n, c.rset) == {} && ReadyW(n, c.wset) == {};
  }

  /** An emulated socket among the exception descriptors stops the simulator, whatever else is asked for. */
  lemma ExceptionStops(s: State, e: EvId, p: Pid, c: Call, ans: Answer)
    requires c.Select? && Enters(s, e, p, c, ans) && c.eset.Some?
    requires exists f :: f in c.eset.value && f in s.net.fds.sockets
    ensures Then(s, e, c, ans).halted
  {
    StopsWith(s, e, p, c, ans);
  }
}
