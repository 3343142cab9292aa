/** With one thread the engine's unchecked assumptions about threads hold by themselves. */
module SoloRun {
  import opened Sim
  import opened SimInv
  import opened SimHandlers
  import opened SimServing
  import opened SimSelect
  import opened SimCallbacks
  import opened SimRun
  import opened SimFrame

  /** Thread `p` is the only one, the last one dispatched, and the owner of every netlink socket. */
  ghost predicate Solo(s: State, p: Pid) {
    s.pid == p && s.tracees.Keys <= {p} && forall i: nat :: i < |s.net.nls| ==> s.net.nls[i].owner == p
  }

  /**
   * A call that waits for what never comes: a write without send space, a receive where ns-3 listens, an accept or a
   * select for connections where it refused to, or a connect that it refuses.
   */
  ghost predicate Endless(n: Net, c: Call, ans: Answer) {
    (c.Write? && WriteBlocks(n, c.fd)) || ((c.Read? || c.RecvFrom?) && ReadsListener(n, c.fd)) ||
    (c.Accept? && AcceptMustWait(n, c.fd) && Refused(n, c.fd)) || SelectUnheard(n, c) || ConnectRefused(n, c, ans)
  }

  /**
   * What remains to be asked of a program with one thread: no call that waits for what never comes, and no second
   * connection on a blocking accept's closure before the next accept.
   */
  ghost predicate SoloAllowed(s: State, step: Step) {
    match step.act
    case Fire(e, next) =>
      var c := CaughtBy(s, e, next);
      c.Some? ==> !c.value.Clone? && !Endless(s.net, c.value, step.ans)
    case Connection(_, sid) =>
      sid < |s.net.socks| && s.net.socks[sid].accept.AcceptWait? ==>
        exists q :: q in s.tracees && s.tracees[q].cont.InAccept? && q == s.net.socks[sid].accept.pid
    case _ => true
  }

  /** While the only thread is to be dispatched nobody waits for anything. */
  lemma NobodyWaits(s: State, p: Pid, e: EvId, fd: Fd)
    requires Inv(s) && Solo(s, p) && e in s.events && s.events[e].what.Before?
    ensures s.events[e].what.pid == p && AllIdle(s, fd)
  {
    assert EventOk(s.tracees, s.ops, e, s.events[e].what);
    assert Unwaited(s, {fd});
    UnwaitedIdle(s, fd);
  }

  lemma SoloCallAllowed(s: State, p: Pid, e: EvId, c: Call, ans: Answer)
    requires Inv(s) && Solo(s, p) && e in s.events && s.events[e].what.Before?
    requires !Endless(s.net, c, ans)
    ensures s.events[e].what.pid == p && CallAllowed(s, p, c, ans)
  {
    forall fd ensures s.events[e].what.pid == p && AllIdle(s, fd) {
      NobodyWaits(s, p, e, fd);
    }
    IdleAllows(s, p, c, ans);
  }

  /** With every slot idle only a call that never ends can do harm. */
  lemma IdleAllows(s: State, p: Pid, c: Call, ans: Answer)
    requires forall fd :: AllIdle(s, fd)
    requires forall i: nat :: i < |s.net.nls| ==> s.net.nls[i].owner == p
    requires !Endless(s.net, c, ans)
    ensures CallAllowed(s, p, c, ans)
  {
    if c.Select? {
      assert forall f :: f in WatchR(s.net.fds, c.rset) + WatchW(s.net.fds, c.wset) ==> AllIdle(s, f);
    } else {
      assert c.Read? || c.RecvFrom? || c.Close? || c.Listen? || c.Connect? || c.Accept? || c.SendTo? || c.SendMsg? ==>
             AllIdle(s, c.fd);
    }
  }

  lemma SoloDiscipline(s: State, p: Pid, step: Step)
    requires Inv(s) && Solo(s, p) && Enabled(s, step) && SoloAllowed(s, step)
    ensures Disciplined(s, step)
  {
    match step.act
    case Fire(e, next) =>
      if CaughtBy(s, e, next).Some? {
        SoloCallAllowed(s, p, e, CaughtBy(s, e, next).value, step.ans);
      }
    case Data(_, sid, _) =>
      var r := s.net.socks[sid].recv;
      assert SlotsOk(s.tracees, s.ops, s.net.fds, sid, s.net.socks[sid]);
      if r.SelectRecv? && !s.ops[r.op].handled {
        Unanswered(s, r.op);
      }
    case _ =>
  }

  lemma SoloKept(s: State, p: Pid, step: Step)
    requires Inv(s) && Solo(s, p) && Enabled(s, step) && SoloAllowed(s, step) && !Next(s, step).halted
    ensures Solo(Next(s, step), p) && Next(s, step).tracees.Keys <= s.tracees.Keys
  {
    if step.act.Fire? {
      if CaughtBy(s, step.act.e, step.act.next).Some? {
        SoloDispatch(s, p, step.act.e, step.act.next, step.ans);
      } else {
        SoloEvent(s, p, step.act.e, step.act.next, step.ans);
      }
    } else {
      SoloCallback(s, p, step);
    }
  }

  lemma SoloCallback(s: State, p: Pid, step: Step)
    requires Inv(s) && Solo(s, p) && Enabled(s, step) && !step.act.Fire? && !Next(s, step).halted
    requires step.act.Connection? && s.net.socks[step.act.sid].accept.AcceptWait? ==>
               s.pid == s.net.socks[step.act.sid].accept.pid
    ensures Solo(Next(s, step), p) && Next(s, step).tracees.Keys <= s.tracees.Keys
  {
    match step.act
    case Data(at, sid, rx) => DataFrame(s.(now := at), sid, rx, step.ans);
    case Space(at, sid, tx) => SpaceFrame(s.(now := at), sid, tx, step.ans);
    case Connection(at, sid) => ConnectionFrame(s.(now := at), sid, step.ans);
    case ConnectEnds(at, sid, ok) => ConnectFrame(s.(now := at), sid, ok, step.ans);
  }

  lemma SoloEvent(s: State, p: Pid, e: EvId, next: Call, ans: Answer)
    requires Inv(s) && Solo(s, p) && e in s.events && CaughtBy(s, e, next).None?
    ensures var t := Next(s, Step(Fire(e, next), ans)); Solo(t, p) && t.tracees.Keys <= s.tracees.Keys
  {
    assert EventOk(s.tracees, s.ops, e, s.events[e].what);
  }

  lemma SoloDispatch(s: State, p: Pid, e: EvId, next: Call, ans: Answer)
    requires Inv(s) && Solo(s, p) && CaughtBy(s, e, next).Some? && !CaughtBy(s, e, next).value.Clone?
    ensures var t := Next(s, Step(Fire(e, next), ans)); Solo(t, p) && t.tracees.Keys <= s.tracees.Keys
  {
    var d, c := Dispatched(s, e, p, next), Caught(s, p, next);
    CallMoves(d, p, c, ans);
    StatusFrame(Handle(d, p, c, ans), p);
  }

  // ---- Runs --------------------------------------------------------------------------------------

  ghost predicate SoloSound(s: State, steps: seq<Step>)
    decreases steps
  {
    steps == [] || s.halted ||
    (Enabled(s, steps[0]) && SoloAllowed(s, steps[0]) && SoloSound(Next(s, steps[0]), steps[1..]))
  }

  lemma {:induction false} SoloRunSound(s: State, p: Pid, steps: seq<Step>)
    requires Inv(s) && Solo(s, p) && SoloSound(s, steps)
    ensures Sound(s, steps) && (RunAll(s, steps).halted || (Inv(RunAll(s, steps)) && Solo(RunAll(s, steps), p)))
    decreases steps
  {
    if steps != [] {
      SoloDiscipline(s, p, steps[0]);
      StepKeeps(s, steps[0]);
      if Next(s, steps[0]).halted {
        assert RunAll(Next(s, steps[0]), steps[1..]) == Next(s, steps[0]);
      } else {
        SoloKept(s, p, steps[0]);
        SoloRunSound(Next(s, steps[0]), p, steps[1..]);
      }
    }
  }

  /** A program with one thread is safe from its start on. */
  lemma SoloRunsAreSafe(app: App, p: Pid, steps: seq<Step>)
    requires SoloSound(Initial(app, p), steps)
    ensures var s := RunAll(Initial(app, p), steps); s.halted || (Inv(s) && Solo(s, p))
  {
    InitialInv(app, p);
    SoloRunSound(Initial(app, p), p, steps);
  }
}
