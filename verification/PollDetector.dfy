/**
 * Poll-loop detection and the exponential backoff that charges virtual time to a loop
 * that only asks for the time, selects, or waits on a futex.
 */
module PollDetector {

  const SYS_SELECT: int := 23
  const SYS_GETTIMEOFDAY: int := 96
  const SYS_FUTEX: int := 202

  /** The counter is a uint32_t. */
  const COUNTER_RANGE: nat := 0x1_0000_0000

  predicate Qualifies(syscall: int) {
    syscall == SYS_GETTIMEOFDAY || syscall == SYS_SELECT || syscall == SYS_FUTEX
  }

  function Pow2(n: nat): (p: nat)
    ensures p >= 1
  {
    if n == 0 then 1 else 2 * Pow2(n - 1)
  }

  /** Detector and strategy state together. */
  datatype Poll = Poll(steps: nat, previous: bool)

  const FRESH := Poll(0, false)

  function Min(a: int, b: int): int { if a <= b then a else b }

  function Max(a: int, b: int): int { if a >= b then a else b }

  /** Delay in nanoseconds: max(1, min(2^steps, 10000)) times 100; none outside a loop. */
  function Delay(steps: nat): nat {
    if steps == 0 then 0 else Max(1, Min(Pow2(steps), 10000)) * 100
  }

  /** One system call seen by the detector. */
  function Observe(p: Poll, syscall: int): Poll {
    var q := Qualifies(syscall);
    Poll(if p.previous && q then (p.steps + 1) % COUNTER_RANGE else 0, q)
  }

  class PollLoopDetector {
    var previousCallQualified: bool
    var pollSteps: nat

    function View(): Poll
      reads this
    {
      Poll(pollSteps, previousCallQualified)
    }

    constructor ()
      ensures View() == FRESH
    {
      previousCallQualified, pollSteps := false, 0;
    }

    method Detect(syscall: int) returns (inLoop: bool)
      modifies this`previousCallQualified
      ensures previousCallQualified <==> syscall in {23, 96, 202}
      ensures inLoop <==> old(previousCallQualified) && syscall in {23, 96, 202}
    {
      var thisCallQualifies;
      if syscall == SYS_GETTIMEOFDAY {
        thisCallQualifies := true;
      } else if syscall == SYS_SELECT {
        thisCallQualifies := true;
      } else if syscall == SYS_FUTEX {
        thisCallQualifies := true;
      } else {
        thisCallQualifies := false;
      }
      inLoop := previousCallQualified && thisCallQualifies;
      previousCallQualified := thisCallQualifies;
    }

    function GetDelay(): nat
      reads this
    {
      Delay(pollSteps)
    }

    method HandleSystemCall(syscall: int) returns (ns: nat)
      modifies this
      ensures View() == Observe(old(View()), syscall)
      ensures ns == Delay(pollSteps)
      ensures previousCallQualified <==> syscall in {23, 96, 202}
      ensures pollSteps == if old(previousCallQualified) && syscall in {23, 96, 202}
                           then (old(pollSteps) + 1) % 0x1_0000_0000 else 0
      ensures ns == if pollSteps == 0 then 0 else if pollSteps <= 13 then 100 * Pow2(pollSteps) else 1000000
    {
      var inLoop := Detect(syscall);
      if !inLoop {
        pollSteps := 0;
      } else {
        pollSteps := (pollSteps + 1) % COUNTER_RANGE;
      }
      ns := GetDelay();
      CapReached(pollSteps);
      Pow2Small(pollSteps);
    }
  }

  lemma {:induction false} PowMonotone(a: nat, b: nat)
    requires a <= b
    ensures Pow2(a) <= Pow2(b)
  {
    if a < b {
      PowMonotone(a, b - 1);
    }
  }

  /** The cap of 10000 lies between 2^13 and 2^14. */
  lemma CapReached(k: nat)
    ensures Pow2(k) < 10000 <==> k <= 13
  {
    assert Pow2(13) == 8192 by {
      assert Pow2(4) == 16;
      assert Pow2(8) == 256;
      assert Pow2(12) == 4096;
    }
    assert Pow2(14) == 16384;
    if k <= 13 {
      PowMonotone(k, 13);
    } else {
      PowMonotone(14, k);
    }
  }

  /** The state after a whole trace of system calls. */
  function Trace(p: Poll, calls: seq<int>): Poll {
    if calls == [] then p else Observe(Trace(p, calls[..|calls| - 1]), calls[|calls| - 1])
  }

  /** Length of the longest suffix of qualifying calls. */
  function LoopLength(calls: seq<int>): nat {
    if calls == [] || !Qualifies(calls[|calls| - 1]) then 0 else 1 + LoopLength(calls[..|calls| - 1])
  }

  /** The counter is a function of the trace alone: the qualifying suffix, less its first call, modulo 2^32. */
  lemma {:induction false} StepsOfTrace(calls: seq<int>)
    ensures Trace(FRESH, calls).previous == (LoopLength(calls) > 0)
    ensures Trace(FRESH, calls).steps == (if LoopLength(calls) == 0 then 0 else (LoopLength(calls) - 1) % COUNTER_RANGE)
  {
    if calls != [] {
      StepsOfTrace(calls[..|calls| - 1]);
    }
  }

  /**
   * What the property means: `n` is the suffix length exactly when the last `n` calls qualify and the one before does
   * not.
   */
  lemma {:induction false} LoopLengthMeaning(calls: seq<int>, n: nat)
    requires n <= |calls|
    ensures LoopLength(calls) == n <==>
            (forall i :: |calls| - n <= i < |calls| ==> Qualifies(calls[i])) &&
            (n < |calls| ==> !Qualifies(calls[|calls| - n - 1]))
  {
    if calls != [] {
      var front := calls[..|calls| - 1];
      if n > 0 {
        LoopLengthMeaning(front, n - 1);
        assert Qualifies(calls[|calls| - 1]) ==>
            ((forall i :: |front| - (n - 1) <= i < |front| ==> Qualifies(front[i])) <==>
             (forall i :: |calls| - n <= i < |calls| ==> Qualifies(calls[i])));
      }
    }
  }

  /** The calls of a polling program, by number: select, gettimeofday and futex on x86-64. */
  predicate PollsOnly(calls: seq<int>) {
    forall i :: 0 <= i < |calls| ==> calls[i] in {23, 96, 202}
  }

  /**
   * What the detector finds at the end of a trace, from the numbers alone: if the last `n` calls are among the three
   * and the one before is not, the last call is charged nothing if n < 2, 100 * 2^(n-1) ns up to the fourteenth, and
   * a millisecond from then on; any other number takes the detector back to where it started.
   */
  lemma SuffixIsCharged(calls: seq<int>, n: nat)
    requires n <= |calls| && n <= COUNTER_RANGE
    requires PollsOnly(calls[|calls| - n..]) && (n < |calls| ==> calls[|calls| - n - 1] !in {23, 96, 202})
    ensures var p := Trace(FRESH, calls);
            (n == 0 ==> p == FRESH) && (p.previous <==> n > 0) &&
            Delay(p.steps) == if n < 2 then 0 else if n <= 14 then 100 * Pow2(n - 1) else 1000000
  {
    var last := calls[|calls| - n..];
    forall i | |calls| - n <= i < |calls| ensures Qualifies(calls[i]) {
      assert last[i - (|calls| - n)] == calls[i];
    }
    LoopLengthMeaning(calls, n);
    StepsOfTrace(calls);
    if n > 0 {
      CapReached(n - 1);
      Pow2Small(n - 1);
    }
  }

  lemma Pow2Small(k: nat)
    ensures k > 0 ==> Pow2(k) >= 2
  {
  }

  /** The delays charged after each of these calls, together. */
  function Charged(p: Poll, calls: seq<int>): nat
    decreases calls
  {
    if calls == [] then 0
    else
      var q := Observe(p, calls[0]);
      Delay(q.steps) + Charged(q, calls[1..])
  }

  lemma {:induction false} ChargedIsTotal(p: Poll, calls: seq<int>)
    requires PollsOnly(calls)
    ensures Charged(p, calls) == TotalDelay(p, |calls|)
    decreases calls
  {
    if calls != [] {
      assert calls[0] in {23, 96, 202};
      assert Observe(p, calls[0]) == Observe(p, SYS_SELECT);
      ChargedIsTotal(Observe(p, calls[0]), calls[1..]);
    }
  }

  /**
   * Any sequence over the three numbers costs at least 100 * (2^n - 2) ns for n calls up to the fourteenth and a
   * millisecond for each further one, and just that if it starts the loop.
   */
  lemma PollingIsCharged(p: Poll, calls: seq<int>)
    requires PollsOnly(calls) && p.steps + |calls| < COUNTER_RANGE && (!p.previous ==> p.steps == 0)
    ensures Charged(p, calls) >= Progress(|calls|)
    ensures !p.previous ==> Charged(p, calls) == Progress(|calls|)
  {
    ChargedIsTotal(p, calls);
    ProgressBound(p, |calls|);
  }

  /** Least total delay of `n` consecutive qualifying calls. */
  function Progress(n: nat): nat {
    if n == 0 then 0
    else if n <= 14 then 100 * (Pow2(n) - 2)
    else 1638200 + 1000000 * (n - 14)
  }

  /** Total of the delays charged after each of `n` further qualifying calls. */
  function TotalDelay(p: Poll, n: nat): nat
    decreases n
  {
    if n == 0 then 0 else
    var q := Observe(p, SYS_SELECT);
    Delay(q.steps) + TotalDelay(q, n - 1)
  }

  /** The bound's step: call number k + 1 of a loop is charged at least the increment. */
  lemma ProgressStep(k: nat)
    ensures Progress(k + 1) - Progress(k) == if k == 0 then 0 else Delay(k)
  {
    CapReached(k);
    if k == 14 {
      assert Pow2(14) == 16384 by { assert Pow2(4) == 16; assert Pow2(8) == 256; assert Pow2(12) == 4096; }
    }
  }

  /** Starting outside a loop the total is the bound exactly; inside a loop it is never less. */
  lemma {:induction false} TotalDelayFrom(p: Poll, k: nat, n: nat)
    requires p.previous && k >= 1 && p.steps == k - 1
    requires k + n <= COUNTER_RANGE
    ensures TotalDelay(p, n) == Progress(k + n) - Progress(k)
    decreases n
  {
    if n > 0 {
      var q := Observe(p, SYS_SELECT);
      assert q == Poll(k, true);
      TotalDelayFrom(q, k + 1, n - 1);
      ProgressStep(k);
    }
  }

  lemma {:induction false} ProgressConvex(k: nat, n: nat)
    ensures Progress(n) <= Progress(k + n) - Progress(k)
    decreases k
  {
    if k > 0 {
      ProgressConvex(k - 1, n);
      ProgressStep(k - 1);
      ProgressStep(k + n - 1);
      DelayMonotone(k - 1, k + n - 1);
    }
  }

  lemma DelayMonotone(a: nat, b: nat)
    requires a <= b
    ensures Delay(a) <= Delay(b)
  {
    PowMonotone(a, b);
    CapReached(a);
    CapReached(b);
  }

  /** Progress bound: 100 * (2^n - 2) ns for n in 1..14, then 1 ms per call; equality when the loop starts fresh. */
  lemma ProgressBound(p: Poll, n: nat)
    requires p.steps + n < COUNTER_RANGE
    requires !p.previous ==> p.steps == 0
    ensures TotalDelay(p, n) >= Progress(n)
    ensures !p.previous ==> TotalDelay(p, n) == Progress(n)
  {
    if n > 0 {
      if p.previous {
        TotalDelayFrom(p, p.steps + 1, n);
        ProgressConvex(p.steps + 1, n);
      } else {
        TotalDelayFrom(Observe(p, SYS_SELECT), 1, n - 1);
      }
    }
  }

  /** No Zeno loops: whatever the deadline, more than 14 + deadline / 1 ms qualifying calls outlast it. */
  lemma BoundedPolling(n: nat, deadline: nat)
    requires Progress(n) <= deadline
    ensures n <= 14 + deadline / 1000000
  {
  }

  /** The counter's width is a real limit: call number 2^32 + 1 of a loop is charged nothing. */
  lemma CounterWraps(p: Poll)
    requires p.previous && p.steps == COUNTER_RANGE - 1
    ensures Delay(Observe(p, SYS_SELECT).steps) == 0 && Delay(p.steps) == 1000000
  {
    CapReached(p.steps);
  }
}
