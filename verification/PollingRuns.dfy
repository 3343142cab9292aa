/**
 * A program that only polls cannot stop the virtual clock: every further call costs it more time, up to a
 * millisecond.
 */
module PollingRuns {
  import opened Sim
  import opened SimInv
  import opened SimRun
  import opened SimFrame
  import opened SoloRun
  import opened VirtualTime
  import PD = PollDetector

  /** Thread `p` makes no further call before `due`. */
  ghost predicate NextCallAt(s: State, p: Pid, due: nat) {
    p in s.tracees ==>
      if s.tracees[p].cont.Resumes? then s.tracees[p].cont.ev in s.events && s.events[s.tracees[p].cont.ev].at >= due
      else s.now + PD.Delay(s.poll.steps) >= due
  }

  ghost predicate PollKept(s: State, t: State) {
    t.poll == s.poll && t.app == s.app && t.now >= s.now &&
    forall e :: e in t.events && e >= s.nextEvent && t.events[e].what.Before? ==>
      t.events[e].at >= t.now + PD.Delay(s.poll.steps)
  }

  lemma SettledPoll(s: State, s0: State, t: State)
    requires s0 == s.(now := s0.now, events := s0.events) && s0.now >= s.now
    requires QueueOk(s.events, s.nextEvent, s.now) && s0.events.Keys <= s.events.Keys && Settled(s0, t)
    ensures PollKept(s, t)
  {
  }

  lemma EventPoll(s: State, e: EvId, next: Call, ans: Answer)
    requires Inv(s) && IsNext(s.events, e) && CaughtBy(s, e, next).None? && !s.events[e].what.Before?
    ensures PollKept(s, Next(s, Step(Fire(e, next), ans)))
  {
    var s1, t := s.(now := s.events[e].at, events := s.events - {e}), Next(s, Step(Fire(e, next), ans));
    assert EventOk(s.tracees, s.ops, e, s.events[e].what);
    match s.events[e].what
    case SelectTimeout(op) =>
      FinishFrame(s1, op, s.ops[op].pid, SelectTimedOut, ans.stray);
      SettledPoll(s, s1, t);
    case SleepDone(p) =>
      WakeFrame(s1, s1, p, Value(0), ans.stray);
      SettledPoll(s, s1, t);
    case SocketCleanup(_) =>
      assert Settled(s1, s1);
      SettledPoll(s, s1, t);
  }

  predicate Dispatches(s: State, step: Step) {
    step.act.Fire? && CaughtBy(s, step.act.e, step.act.next).Some?
  }

  lemma IdlePoll(s: State, p: Pid, step: Step)
    requires Inv(s) && Enabled(s, step) && Disciplined(s, step) && !Next(s, step).halted
    requires !Dispatches(s, step) && (step.act.Fire? ==> !s.events[step.act.e].what.Before?)
    ensures PollKept(s, Next(s, step))
  {
    if step.act.Fire? {
      EventPoll(s, step.act.e, step.act.next, step.ans);
    } else {
      CallbackSettled(s, step);
      SettledPoll(s, s.(now := step.act.at), Next(s, step));
    }
  }

  /** The last step of a thread that leaves. */
  lemma LeavingStep(s: State, p: Pid, step: Step)
    requires Inv(s) && step.act.Fire? && step.act.e in s.events && s.events[step.act.e].what.Before?
    requires !Dispatches(s, step) && s.tracees.Keys <= {p}
    ensures p !in Next(s, step).tracees && Next(s, step).app == s.app && Next(s, step).poll == s.poll
  {
    assert EventOk(s.tracees, s.ops, step.act.e, s.events[step.act.e].what);
  }

  /** A step that dispatches nothing brings no call forward. */
  lemma IdleStep(s: State, p: Pid, step: Step, due: nat)
    requires Inv(s) && Enabled(s, step) && Disciplined(s, step) && !Next(s, step).halted && Inv(Next(s, step))
    requires !Dispatches(s, step) && NextCallAt(s, p, due) && s.tracees.Keys <= {p}
    requires Next(s, step).tracees.Keys <= s.tracees.Keys
    ensures NextCallAt(Next(s, step), p, due) && Next(s, step).poll == s.poll && Next(s, step).app == s.app
  {
    if step.act.Fire? && s.events[step.act.e].what.Before? {
      LeavingStep(s, p, step);
    } else {
      IdlePoll(s, p, step);
      IdleDue(s, p, step, due);
    }
  }

  lemma IdleDue(s: State, p: Pid, step: Step, due: nat)
    requires Inv(s) && Enabled(s, step) && Disciplined(s, step) && !Next(s, step).halted && Inv(Next(s, step))
    requires NextCallAt(s, p, due) && PollKept(s, Next(s, step)) &&
             (step.act.Fire? ==> !s.events[step.act.e].what.Before?)
    requires p in s.tracees <== p in Next(s, step).tracees
    ensures NextCallAt(Next(s, step), p, due)
  {
    var t := Next(s, step);
    if p in t.tracees {
      StepOld(s, step);
      OnlyItsSourceMoves(s, step, p);
      assert ContOk(s.events, s.ops, s.net, p, s.tracees[p]);
      assert ContOk(t.events, t.ops, t.net, p, t.tracees[p]);
      assert forall e :: e in s.events ==> EventOk(s.tracees, s.ops, e, s.events[e].what);
    }
  }

  /** A dispatched call that qualifies puts the next one off by one more delay. */
  lemma PollingStep(s: State, p: Pid, step: Step, due: nat)
    requires Inv(s) && Enabled(s, step) && Disciplined(s, step) && !Next(s, step).halted && Inv(Next(s, step))
    requires Dispatches(s, step) && !CaughtBy(s, step.act.e, step.act.next).value.Clone? && s.app.detection
    requires NextCallAt(s, p, due) && s.tracees.Keys <= {p} && Next(s, step).tracees.Keys <= s.tracees.Keys
    ensures var t := Next(s, step);
            t.app == s.app && t.now >= due &&
            t.poll == PD.Observe(s.poll, SysNr(CaughtBy(s, step.act.e, step.act.next).value)) &&
            NextCallAt(t, p, due + PD.Delay(t.poll.steps))
  {
    var t, e := Next(s, step), step.act.e;
    var d := Dispatched(s, e, p, step.act.next);
    assert EventOk(s.tracees, s.ops, e, s.events[e].what);
    DispatchSettled(s, e, step.act.next, step.ans);
    NextCallScheduled(s, d, t, p, e);
  }

  /** The thread's next dispatch is a new event, scheduled after the delay. */
  lemma NextCallScheduled(s: State, d: State, t: State, p: Pid, e: EvId)
    requires Inv(s) && Inv(t) && HasCont(s.tracees, p, Resumes(e)) && d.events == s.events - {e} && Settled(d, t)
    ensures p in t.tracees && t.tracees[p].cont.Resumes? ==>
              t.tracees[p].cont.ev in t.events && t.events[t.tracees[p].cont.ev].at == NextDispatch(d)
  {
    if p in t.tracees && t.tracees[p].cont.Resumes? {
      assert ContOk(t.events, t.ops, t.net, p, t.tracees[p]);
      assert forall g :: g in s.events ==> EventOk(s.tracees, s.ops, g, s.events[g].what);
    }
  }

  // ---- Runs -------------------------------------------------------------------------------------

  /** How many calls a run dispatches. */
  ghost function Calls(s: State, steps: seq<Step>): nat
    decreases steps
  {
    if steps == [] || s.halted then 0
    else (if Dispatches(s, steps[0]) then 1 else 0) + Calls(Next(s, steps[0]), steps[1..])
  }

  /** The calls a polling program makes; futex goes to the kernel. */
  predicate Polls(c: Call) {
    c.Select? || c.GetTimeOfDay? || c == PassThrough(202)
  }

  lemma PollsQualify(c: Call)
    requires Polls(c)
    ensures PD.Qualifies(SysNr(c)) && SysNr(c) in {23, 96, 202}
  {
  }

  /** Every call of the run is select, gettimeofday or futex. */
  ghost predicate OnlyPolls(s: State, steps: seq<Step>)
    decreases steps
  {
    steps == [] || s.halted ||
    ((Dispatches(s, steps[0]) ==> Polls(CaughtBy(s, steps[0].act.e, steps[0].act.next).value)) &&
     OnlyPolls(Next(s, steps[0]), steps[1..]))
  }

  lemma OneMore(poll: PD.Poll, nr: int, n: nat)
    requires PD.Qualifies(nr)
    ensures PD.TotalDelay(poll, n + 1) == PD.Delay(PD.Observe(poll, nr).steps) + PD.TotalDelay(PD.Observe(poll, nr), n)
  {
    assert PD.Observe(poll, nr) == PD.Observe(poll, PD.SYS_SELECT);
  }

  /** The thread's last call lies all delays but the last behind `due`, its next one all of them. */
  ghost predicate Slowed(t: State, p: Pid, due: nat, poll: PD.Poll, n: nat) {
    NextCallAt(t, p, due + PD.TotalDelay(poll, n)) && (n > 0 ==> t.now >= due + PD.TotalDelay(poll, n - 1))
  }

  lemma SlowedMore(t: State, p: Pid, due: nat, poll: PD.Poll, nr: int, n: nat)
    requires PD.Qualifies(nr) && t.now >= due
    requires Slowed(t, p, due + PD.Delay(PD.Observe(poll, nr).steps), PD.Observe(poll, nr), n)
    ensures Slowed(t, p, due, poll, n + 1)
  {
    OneMore(poll, nr, n);
    if n > 0 {
      OneMore(poll, nr, n - 1);
    }
  }

  /** The number of the call a step dispatches. */
  function CallNr(s: State, step: Step): int
    requires Dispatches(s, step)
  {
    SysNr(CaughtBy(s, step.act.e, step.act.next).value)
  }

  lemma PollStep(s: State, p: Pid, step: Step, due: nat)
    requires Inv(s) && Solo(s, p) && Enabled(s, step) && SoloAllowed(s, step) && !Next(s, step).halted
    requires s.app.detection && NextCallAt(s, p, due)
    ensures Inv(Next(s, step)) && Solo(Next(s, step), p) && Next(s, step).app == s.app
    ensures var t := Next(s, step);
            if Dispatches(s, step) then
              t.now >= due && t.poll == PD.Observe(s.poll, CallNr(s, step)) &&
              NextCallAt(t, p, due + PD.Delay(t.poll.steps))
            else t.poll == s.poll && NextCallAt(t, p, due)
  {
    SoloStep(s, p, step);
    if Dispatches(s, step) {
      PollingStep(s, p, step, due);
    } else {
      IdleStep(s, p, step, due);
    }
  }

  lemma {:induction false} PollRun(s: State, p: Pid, steps: seq<Step>, due: nat)
    requires Inv(s) && Solo(s, p) && SoloSound(s, steps) && OnlyPolls(s, steps) && !RunAll(s, steps).halted
    requires s.app.detection && NextCallAt(s, p, due)
    ensures Slowed(RunAll(s, steps), p, due, s.poll, Calls(s, steps))
    decreases steps
  {
    if steps != [] {
      var t, rest := Next(s, steps[0]), steps[1..];
      PollStep(s, p, steps[0], due);
      if Dispatches(s, steps[0]) {
        PollsQualify(CaughtBy(s, steps[0].act.e, steps[0].act.next).value);
        PollRun(t, p, rest, due + PD.Delay(t.poll.steps));
        SoloTime(t, p, rest);
        SlowedMore(RunAll(t, rest), p, due, s.poll, CallNr(s, steps[0]), Calls(t, rest));
      } else {
        PollRun(t, p, rest, due);
      }
    }
  }

  lemma {:induction false} SoloPossible(s: State, steps: seq<Step>)
    requires SoloSound(s, steps)
    ensures Possible(s, steps)
    decreases steps
  {
    if steps != [] && !s.halted {
      SoloPossible(Next(s, steps[0]), steps[1..]);
    }
  }

  lemma SoloTime(s: State, p: Pid, steps: seq<Step>)
    requires Inv(s) && Solo(s, p) && SoloSound(s, steps) && !RunAll(s, steps).halted
    ensures RunAll(s, steps).now >= s.now
  {
    SoloPossible(s, steps);
    TimeNeverRunsBack(s, steps);
  }

  lemma SoloStep(s: State, p: Pid, step: Step)
    requires Inv(s) && Solo(s, p) && Enabled(s, step) && SoloAllowed(s, step) && !Next(s, step).halted
    ensures Disciplined(s, step) && Inv(Next(s, step)) && Solo(Next(s, step), p)
    ensures Next(s, step).tracees.Keys <= s.tracees.Keys
    ensures Dispatches(s, step) ==> !CaughtBy(s, step.act.e, step.act.next).value.Clone?
  {
    SoloDiscipline(s, p, step);
    StepKeeps(s, step);
    SoloKept(s, p, step);
  }

  /**
   * Progress of a polling program: its n-th call lies at least 100 (2^(n-1) - 2) ns behind the start, and a
   * millisecond per call further once the delay is capped. Whatever the deadline, the calls before it are few.
   */
  lemma PollingMakesProgress(s: State, p: Pid, steps: seq<Step>, deadline: nat)
    requires Inv(s) && Solo(s, p) && SoloSound(s, steps) && OnlyPolls(s, steps) && !RunAll(s, steps).halted
    requires s.app.detection && (!s.poll.previous ==> s.poll.steps == 0)
    requires s.poll.steps + Calls(s, steps) < PD.COUNTER_RANGE
    ensures var n, t := Calls(s, steps), RunAll(s, steps);
            (n > 0 ==> t.now >= s.now + PD.Progress(n - 1)) &&
            (t.now <= s.now + deadline ==> n <= 15 + deadline / 1000000)
  {
    var n := Calls(s, steps);
    StartsNow(s, p);
    PollRun(s, p, steps, s.now);
    if n > 0 {
      PD.ProgressBound(s.poll, n - 1);
      if RunAll(s, steps).now <= s.now + deadline {
        PD.BoundedPolling(n - 1, deadline);
      }
    }
  }

  lemma StartsNow(s: State, p: Pid)
    requires Inv(s)
    ensures NextCallAt(s, p, s.now)
  {
    if p in s.tracees {
      assert ContOk(s.events, s.ops, s.net, p, s.tracees[p]);
    }
  }

  // ---- Everybody else -----------------------------------------------------------------------------

  /** A call that is none of the three, whatever its number. */
  predicate Works(c: Call) {
    match c
    case PassThrough(nr) => nr !in {23, 96, 202}
    case Constant(nr, _) => nr !in {23, 96, 202}
    case Select(_, _, _, _) => false
    case GetTimeOfDay => false
    case _ => true
  }

  /**
   * A program that does anything else in between is back at the start: the detector forgets the loop, and if the call
   * is answered at once the next one is not delayed at all.
   */
  lemma WorkIsNotDelayed(s: State, p: Pid, e: EvId, next: Call, ans: Answer)
    requires Inv(s) && Solo(s, p) && Enabled(s, Step(Fire(e, next), ans)) && SoloAllowed(s, Step(Fire(e, next), ans))
    requires CaughtBy(s, e, next).Some? && Works(CaughtBy(s, e, next).value) && s.app.detection
    requires !Next(s, Step(Fire(e, next), ans)).halted
    ensures var t := Next(s, Step(Fire(e, next), ans));
            t.poll == PD.FRESH &&
            (p in t.tracees && t.tracees[p].cont.Resumes? ==>
               t.tracees[p].cont.ev in t.events &&
               t.events[t.tracees[p].cont.ev].at == s.events[e].at + s.app.processing)
  {
    var step, t := Step(Fire(e, next), ans), Next(s, Step(Fire(e, next), ans));
    SoloStep(s, p, step);
    assert EventOk(s.tracees, s.ops, e, s.events[e].what);
    DispatchSettled(s, e, next, ans);
    WorkResets(s.poll, CaughtBy(s, e, next).value);
    NextCallScheduled(s, Dispatched(s, e, p, next), t, p, e);
  }

  lemma WorkResets(poll: PD.Poll, c: Call)
    requires Works(c)
    ensures PD.Observe(poll, SysNr(c)) == PD.FRESH
  {
  }
}
