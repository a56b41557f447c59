/**
  * When a flush pass leaves its drain loop. On every fair run with consent left alone, the only
  * way to stay in the loop for ever is that counts of the stored rows are taken again and again
  * and from some point on every one of them fails, with nothing at or below the barrier left.
  */
module PipelineDrainRuns {
  import opened Events
  import opened StoreSpec
  import opened Pipeline
  import opened PipelineFlow
  import opened PipelineOrder
  import opened PipelineCapacity
  import opened PipelineFlush
  import opened PipelineDrain
  import opened PipelineDrainSteps
  import opened PipelineDrainOff

  // ---- infinite runs ----

  ghost predicate IsRun(run: nat -> State, schedule: nat -> Step) {
    forall n: nat :: run(n + 1) == Next(run(n), schedule(n))
  }

  /** The worker gets a turn again and again: one at `turn(i)`, at `i` or later. */
  ghost predicate Fair(schedule: nat -> Step, turn: nat -> nat) {
    forall i: nat :: i <= turn(i) && schedule(turn(i)).Work?
  }

  ghost predicate AllAllowed(schedule: nat -> Step) {
    forall n: nat :: Allowed(schedule(n))
  }

  ghost predicate NeverLeaves(run: nat -> State) {
    forall n: nat :: InDrain(run(n).k.w)
  }

  /** The head of the drain loop, with everything in memory and in the store storable. */
  predicate AtLoopHead(s: State) {
    && s.k.w.pc.CheckQueue? && !s.k.w.pass.final
    && s.up && !s.run.died && s.cl.c.pc.ConsentIdle?
    && AllStorable(Held(s.b), s.cl.p)
  }

  predicate Counting(s: State, step: Step) {
    s.k.w.pc.CheckStore? && step.Work?
  }

  // ---- a measure that every turn of the worker lowers runs out ----

  ghost predicate Descends(schedule: nat -> Step, stays: nat -> bool, size: nat -> Measure, from: nat) {
    forall n: nat :: from <= n && stays(n) ==>
      if schedule(n).Work? then stays(n + 1) ==> Less(size(n + 1), size(n))
      else stays(n + 1) && size(n + 1) == size(n)
  }

  lemma {:induction false} RunsOut(schedule: nat -> Step, turn: nat -> nat, stays: nat -> bool,
                                   size: nat -> Measure, i: nat, m: Measure) returns (k: nat)
    requires Fair(schedule, turn) && Descends(schedule, stays, size, i) && m == size(i)
    ensures i <= k && !stays(k)
    decreases m.stale, m.remaining, m.room, m.stage, m.rows, m.rank, m.hand
  {
    if !stays(i) { return i; }
    var n, j := i, turn(i);
    while n < j && !schedule(n).Work?
      invariant i <= n <= j && stays(n) && size(n) == m
      decreases j - n
    {
      n := n + 1;
    }
    assert schedule(n).Work?;
    if !stays(n + 1) { return n + 1; }
    k := RunsOut(schedule, turn, stays, size, n + 1, size(n + 1));
  }

  // ---- without consent ----

  lemma OffForever(run: nat -> State, schedule: nat -> Step, n: nat)
    requires IsRun(run, schedule) && AllAllowed(schedule) && NeverLeaves(run) && OffDraining(run(0))
    ensures OffDraining(run(n))
  {
    for i := 0 to n
      invariant OffDraining(run(i))
    {
      OffDescends(run, schedule, i);
    }
  }

  lemma OffDescends(run: nat -> State, schedule: nat -> Step, n: nat)
    requires IsRun(run, schedule) && AllAllowed(schedule) && NeverLeaves(run) && OffDraining(run(n))
    ensures OffDraining(run(n + 1))
    ensures if schedule(n).Work? then OffRank(run(n + 1).k.w) < OffRank(run(n).k.w)
            else run(n + 1).k.w == run(n).k.w
  {
    var s, step := run(n), schedule(n);
    assert InDrain(run(n + 1).k.w) && Allowed(step);
    if step.Work? { OffWork(s, step.ok, step.fault); } else { OffOther(s, step); }
  }

  function OffSize(s: State): Measure {
    Measure(0, 0, 0, 0, 0, OffRank(s.k.w), 0)
  }

  lemma OffLeaves(run: nat -> State, schedule: nat -> Step, turn: nat -> nat) returns (k: nat)
    requires IsRun(run, schedule) && Fair(schedule, turn) && AllAllowed(schedule) && OffDraining(run(0))
    ensures !InDrain(run(k).k.w)
  {
    if n: nat :| !InDrain(run(n).k.w) {
      k := n;
    } else {
      var stays := (n: nat) => true;
      var size := (n: nat) => OffSize(run(n));
      forall n: nat
        ensures if schedule(n).Work? then Less(size(n + 1), size(n)) else size(n + 1) == size(n)
      {
        OffForever(run, schedule, n);
        OffDescends(run, schedule, n);
      }
      assert Descends(schedule, stays, size, 0);
      var j := RunsOut(schedule, turn, stays, size, 0, size(0));
      assert false;
    }
  }

  // ---- with consent ----

  lemma DrainingNext(run: nat -> State, schedule: nat -> Step, most: nat, slack: nat, n: nat)
    requires IsRun(run, schedule) && AllAllowed(schedule) && NeverLeaves(run) && Draining(run(n), most, slack)
    ensures Draining(run(n + 1), most, slack) && run(n + 1).cl.gen == run(n).cl.gen
  {
    var s, step := run(n), schedule(n);
    assert InDrain(run(n + 1).k.w) && Allowed(step);
    GenKept(s, step);
    if step.Work? { WorkDrains(s, step.ok, step.fault, most, slack); } else { OtherDrains(s, step, most, slack); }
  }

  lemma GenKept(s: State, step: Step)
    requires Steady(s) && Allowed(step)
    ensures Next(s, step).cl.gen == s.cl.gen
  {
    if step.Work? {
      WorkSpares(s, step.ok, step.fault);
    } else if step.Producing? {
      ProducerSpares(s);
    } else {
      OthersKeepCallers(s, step);
    }
  }

  lemma DrainingForever(run: nat -> State, schedule: nat -> Step, most: nat, slack: nat, n: nat)
    requires IsRun(run, schedule) && AllAllowed(schedule) && NeverLeaves(run) && Draining(run(0), most, slack)
    ensures Draining(run(n), most, slack) && run(n).cl.gen == run(0).cl.gen
  {
    for i := 0 to n
      invariant Draining(run(i), most, slack) && run(i).cl.gen == run(0).cl.gen
    {
      DrainingNext(run, schedule, most, slack, i);
    }
  }

  function Left(s: State): nat {
    Remaining(s.b, s.k.w.pass.barrier)
  }

  /** What one step does to the two measures. */
  predicate Progress(s: State, step: Step, s': State, f: Frame) {
    && (step.Work? ==>
          && (Left(s) > 0 && Left(s') > 0 ==> Less(MeasureOf(s'.k.w, s'.b, f), MeasureOf(s.k.w, s.b, f)))
          && (Left(s) == 0 && !s.k.w.pc.CheckStore? ==> Less(Way(s'.k.w, s'.b), Way(s.k.w, s.b)))
          && (Left(s) == 0 ==> Left(s') == 0))
    && (!step.Work? ==>
          && s'.k.w == s.k.w && Left(s') == Left(s) && Way(s'.k.w, s'.b) == Way(s.k.w, s.b)
          && MeasureOf(s'.k.w, s'.b, f) == MeasureOf(s.k.w, s.b, f))
  }

  lemma NoneLeft(s: State, s': State)
    requires HeldFrom(s, s') && s'.k.w.pass.barrier == s.k.w.pass.barrier
    requires Left(s) == 0 && Clear(s.cl.p.pend, s.k.w.pass.barrier)
    ensures Left(s') == 0
  {
    CountUpToZero(Held(s.b), s.k.w.pass.barrier);
    CountUpToZero(Held(s'.b), s.k.w.pass.barrier);
  }

  lemma WorkProgress(s: State, step: Step, most: nat, slack: nat)
    requires Draining(s, most, slack) && step.Work? && InDrain(Next(s, step).k.w)
    ensures Progress(s, step, Next(s, step), FrameOf(s, most, slack))
  {
    WorkAdvances(s, step.ok, step.fault, most, slack);
    WorkHeld(s, step.ok, step.fault);
    if Left(s) == 0 {
      PendAbovePass(s);
      NoneLeft(s, Next(s, step));
    }
  }

  lemma OtherProgress(s: State, step: Step, most: nat, slack: nat)
    requires Draining(s, most, slack) && Allowed(step) && !step.Work?
    ensures Progress(s, step, Next(s, step), FrameOf(s, most, slack))
  {
    OtherDrains(s, step, most, slack);
    GenKept(s, step);
    WorkerKept(s, step);
    SameSizeProgress(s, step, Next(s, step), FrameOf(s, most, slack));
  }

  lemma WorkerKept(s: State, step: Step)
    requires Steady(s) && Allowed(step) && !step.Work?
    ensures Next(s, step).k.w == s.k.w
  {
    if step.Producing? { ProducerSpares(s); } else { OthersKeep(s, step); }
  }

  lemma SameSizeProgress(s: State, step: Step, s': State, f: Frame)
    requires !step.Work? && s'.k.w == s.k.w && Way(s'.k.w, s'.b) == Way(s.k.w, s.b)
    requires MeasureOf(s'.k.w, s'.b, f) == MeasureOf(s.k.w, s.b, f)
    ensures Progress(s, step, s', f)
  {}

  lemma RunProgress(run: nat -> State, schedule: nat -> Step, most: nat, slack: nat, n: nat)
    requires IsRun(run, schedule) && AllAllowed(schedule) && NeverLeaves(run) && Draining(run(0), most, slack)
    ensures Progress(run(n), schedule(n), run(n + 1), FrameOf(run(0), most, slack))
  {
    var s, step := run(n), schedule(n);
    assert InDrain(run(n + 1).k.w) && Allowed(step);
    DrainingForever(run, schedule, most, slack, n);
    if step.Work? { WorkProgress(s, step, most, slack); } else { OtherProgress(s, step, most, slack); }
  }

  /** Every step of the run makes progress. */
  ghost predicate Progresses(run: nat -> State, schedule: nat -> Step, f: Frame) {
    forall n: nat :: Progress(run(n), schedule(n), run(n + 1), f)
  }

  lemma NothingLeft(run: nat -> State, schedule: nat -> Step, turn: nat -> nat, f: Frame) returns (m: nat)
    requires Progresses(run, schedule, f) && Fair(schedule, turn)
    ensures Left(run(m)) == 0
  {
    var stays := (n: nat) => Left(run(n)) > 0;
    var size := (n: nat) => MeasureOf(run(n).k.w, run(n).b, f);
    forall n: nat | stays(n)
      ensures if schedule(n).Work? then stays(n + 1) ==> Less(size(n + 1), size(n))
              else stays(n + 1) && size(n + 1) == size(n)
    {
      assert Progress(run(n), schedule(n), run(n + 1), f);
    }
    assert Descends(schedule, stays, size, 0);
    m := RunsOut(schedule, turn, stays, size, 0, size(0));
  }

  lemma {:induction false} StillNothing(run: nat -> State, schedule: nat -> Step, f: Frame, m: nat, n: nat)
    requires Progresses(run, schedule, f) && m <= n && Left(run(m)) == 0
    ensures Left(run(n)) == 0
    decreases n - m
  {
    if m < n {
      assert Progress(run(m), schedule(m), run(m + 1), f);
      StillNothing(run, schedule, f, m + 1, n);
    }
  }

  /** A count that succeeds with nothing left would end the loop. */
  lemma CountFails(run: nat -> State, schedule: nat -> Step, n: nat)
    requires IsRun(run, schedule) && NeverLeaves(run)
    requires run(n).up && Left(run(n)) == 0 && Counting(run(n), schedule(n))
    ensures !schedule(n).ok
  {
    assert InDrain(run(n).k.w) && InDrain(run(n + 1).k.w);
    CountEnds(run(n));
  }

  /** With nothing left, the worker comes to its next count. */
  lemma NextCount(run: nat -> State, schedule: nat -> Step, turn: nat -> nat, f: Frame, i: nat) returns (j: nat)
    requires Progresses(run, schedule, f) && Fair(schedule, turn) && Left(run(i)) == 0
    ensures i <= j && Counting(run(j), schedule(j))
  {
    var stays := (n: nat) => !run(n).k.w.pc.CheckStore?;
    var size := (n: nat) => Way(run(n).k.w, run(n).b);
    forall n: nat | i <= n && stays(n)
      ensures if schedule(n).Work? then stays(n + 1) ==> Less(size(n + 1), size(n))
              else stays(n + 1) && size(n + 1) == size(n)
    {
      StillNothing(run, schedule, f, i, n);
      assert Progress(run(n), schedule(n), run(n + 1), f);
    }
    assert Descends(schedule, stays, size, i);
    var c := RunsOut(schedule, turn, stays, size, i, size(i));
    j := NextTurn(run, schedule, turn, f, c);
  }

  /** The other threads leave the worker where it is until its next turn. */
  lemma NextTurn(run: nat -> State, schedule: nat -> Step, turn: nat -> nat, f: Frame, i: nat) returns (j: nat)
    requires Progresses(run, schedule, f) && Fair(schedule, turn)
    ensures i <= j && schedule(j).Work? && run(j).k.w == run(i).k.w
  {
    j := i;
    while j < turn(i) && !schedule(j).Work?
      invariant i <= j <= turn(i) && run(j).k.w == run(i).k.w
      decreases turn(i) - j
    {
      assert Progress(run(j), schedule(j), run(j + 1), f);
      j := j + 1;
    }
  }

  /** A run that never leaves the loop has consent, with some limit on the counter and on what it
      misses. */
  lemma StuckDrains(run: nat -> State, schedule: nat -> Step, turn: nat -> nat) returns (most: nat, slack: nat)
    requires Reachable(run(0)) && AtLoopHead(run(0)) && IsRun(run, schedule) && Fair(schedule, turn)
    requires AllAllowed(schedule) && NeverLeaves(run)
    ensures Draining(run(0), most, slack)
  {
    var s := run(0);
    SafeAlways(s);
    if s.cl.consent != Granted {
      var k := OffLeaves(run, schedule, turn);
      assert false;
    } else {
      most, slack := Max(s.cfg.cap, s.k.outstanding), LoadOf(s);
    }
  }

  lemma StuckProgresses(run: nat -> State, schedule: nat -> Step, turn: nat -> nat) returns (f: Frame)
    requires Reachable(run(0)) && AtLoopHead(run(0)) && IsRun(run, schedule) && Fair(schedule, turn)
    requires AllAllowed(schedule) && NeverLeaves(run)
    ensures Progresses(run, schedule, f) && forall n: nat :: run(n).up
  {
    var most, slack := StuckDrains(run, schedule, turn);
    f := FrameOf(run(0), most, slack);
    forall n: nat ensures Progress(run(n), schedule(n), run(n + 1), f) && run(n).up {
      RunProgress(run, schedule, most, slack, n);
      DrainingForever(run, schedule, most, slack, n);
    }
  }

  // ---- the theorems ----

  /** A fair run that never leaves the loop has nothing at or below the barrier left from some
      point on, and every count taken from there on fails. */
  lemma StuckMeansCountsFail(run: nat -> State, schedule: nat -> Step, turn: nat -> nat) returns (m: nat)
    requires Reachable(run(0)) && AtLoopHead(run(0)) && IsRun(run, schedule) && Fair(schedule, turn)
    requires AllAllowed(schedule) && NeverLeaves(run)
    ensures forall n: nat :: m <= n ==> Left(run(n)) == 0
    ensures forall n: nat :: m <= n && Counting(run(n), schedule(n)) ==> !schedule(n).ok
  {
    var f := StuckProgresses(run, schedule, turn);
    m := NothingLeft(run, schedule, turn, f);
    forall n: nat | m <= n
      ensures Left(run(n)) == 0 && (Counting(run(n), schedule(n)) ==> !schedule(n).ok)
    {
      StillNothing(run, schedule, f, m, n);
      if Counting(run(n), schedule(n)) { CountFails(run, schedule, n); }
    }
  }

  /** A fair run that never leaves the loop takes a failing count again and again. */
  lemma StuckMeansCountsRecur(run: nat -> State, schedule: nat -> Step, turn: nat -> nat, i: nat) returns (j: nat)
    requires Reachable(run(0)) && AtLoopHead(run(0)) && IsRun(run, schedule) && Fair(schedule, turn)
    requires AllAllowed(schedule) && NeverLeaves(run)
    ensures i <= j && Counting(run(j), schedule(j)) && !schedule(j).ok
  {
    var f := StuckProgresses(run, schedule, turn);
    var m := NothingLeft(run, schedule, turn, f);
    StillNothing(run, schedule, f, m, Max(i, m));
    j := NextCount(run, schedule, turn, f, Max(i, m));
    StillNothing(run, schedule, f, m, j);
    CountFails(run, schedule, j);
  }

  /** Every fair run whose counts succeed from some point on leaves the loop. */
  lemma DrainTerminates(run: nat -> State, schedule: nat -> Step, turn: nat -> nat, from: nat) returns (k: nat)
    requires Reachable(run(0)) && AtLoopHead(run(0)) && IsRun(run, schedule) && Fair(schedule, turn)
    requires AllAllowed(schedule)
    requires forall n: nat :: from <= n && Counting(run(n), schedule(n)) ==> schedule(n).ok
    ensures !InDrain(run(k).k.w)
  {
    if n: nat :| !InDrain(run(n).k.w) {
      k := n;
    } else {
      var j := StuckMeansCountsRecur(run, schedule, turn, from);
      assert false;
    }
  }
}
