/**
  * A fair run that stays in the drain loop for ever admits events for ever: with nothing new, the
  * worker runs out of things to move and to deliver, and leaves the loop whatever the counts say.
  */
module PipelineDrainStarved {
  import opened StoreSpec
  import opened Pipeline
  import opened PipelineOrder
  import opened PipelineFlush
  import opened PipelineDrain
  import opened PipelineDrainSteps
  import opened PipelineDrainRuns

  /** What is held, then the measure: what is left to do if nothing more is admitted. */
  function Chores(s: State, f: Frame): Measure {
    MeasureOf(s.k.w, s.b, f).(stale := |Held(s.b)|)
  }

  lemma WorkShortens(s: State, ok: bool, fault: FetchFault)
    requires Order(s) && LoopOk(s.k.w, s.b, s.cl.gen)
    ensures var b := WorkerNext(s, ok, fault).b;
            Shortens(s.b, b) && (s.k.w.pc.Ack? ==> b == s.b || |Held(b)| < |Held(s.b)|)
  {
    if Moves(s.k.w.pc) {
      MovingShortens(s, ok, fault);
      if s.k.w.pc.Ack? { AckShortens(s, ok, fault); }
    }
  }

  /** A turn of the worker leaves fewer chores. */
  lemma WorkLessens(s: State, ok: bool, fault: FetchFault, most: nat, slack: nat)
    requires Draining(s, most, slack) && InDrain(WorkerNext(s, ok, fault).k.w)
    ensures Less(Chores(WorkerNext(s, ok, fault), FrameOf(s, most, slack)), Chores(s, FrameOf(s, most, slack)))
  {
    WorkAdvances(s, ok, fault, most, slack);
    WorkShortens(s, ok, fault);
  }

  /** A step of another thread that admits nothing leaves the chores alone. */
  lemma OthersLeave(s: State, step: Step, f: Frame)
    requires Steady(s) && Order(s) && Allowed(step) && !step.Work?
    requires |Next(s, step).log.admitted| <= |s.log.admitted|
    ensures Chores(Next(s, step), f) == Chores(s, f)
  {
    WorkerKept(s, step);
    if step.Producing? { PushesAreAdmissions(s); } else { OthersKeep(s, step); }
  }

  lemma PushesAreAdmissions(s: State)
    requires Pending(s.cl, |s.log.admitted|) && |ProducerNext(s).log.admitted| <= |s.log.admitted|
    ensures ProducerNext(s).b == s.b
  {}

  ghost predicate AdmitsAt(run: nat -> State, n: nat) {
    |run(n + 1).log.admitted| > |run(n).log.admitted|
  }

  ghost predicate Lessens(run: nat -> State, schedule: nat -> Step, f: Frame, n: nat) {
    if schedule(n).Work? then Less(Chores(run(n + 1), f), Chores(run(n), f))
    else Chores(run(n + 1), f) == Chores(run(n), f)
  }

  /** Chores cannot become fewer for ever. */
  lemma ChoresEnd(run: nat -> State, schedule: nat -> Step, turn: nat -> nat, f: Frame, i: nat) returns (k: nat)
    requires Fair(schedule, turn)
    ensures i <= k && !Lessens(run, schedule, f, k)
  {
    if n: nat :| i <= n && !Lessens(run, schedule, f, n) {
      k := n;
    } else {
      var stays := (n: nat) => true;
      var size := (n: nat) => Chores(run(n), f);
      forall n: nat | i <= n
        ensures if schedule(n).Work? then Less(size(n + 1), size(n)) else size(n + 1) == size(n)
      {
        assert Lessens(run, schedule, f, n);
      }
      assert Descends(schedule, stays, size, i);
      var j := RunsOut(schedule, turn, stays, size, i, size(i));
      assert false;
    }
  }

  lemma StepLessens(run: nat -> State, schedule: nat -> Step, most: nat, slack: nat, n: nat)
    requires IsRun(run, schedule) && AllAllowed(schedule) && NeverLeaves(run) && Draining(run(0), most, slack)
    requires !AdmitsAt(run, n)
    ensures Lessens(run, schedule, FrameOf(run(0), most, slack), n)
  {
    var s, step := run(n), schedule(n);
    assert InDrain(run(n + 1).k.w) && Allowed(step);
    DrainingForever(run, schedule, most, slack, n);
    if step.Work? {
      WorkLessens(s, step.ok, step.fault, most, slack);
    } else {
      OthersLeave(s, step, FrameOf(s, most, slack));
    }
  }

  /** A fair run that never leaves the loop admits an event again and again. */
  lemma StuckMeansAdmissionsRecur(run: nat -> State, schedule: nat -> Step, turn: nat -> nat, i: nat) returns (j: nat)
    requires Reachable(run(0)) && AtLoopHead(run(0)) && IsRun(run, schedule) && Fair(schedule, turn)
    requires AllAllowed(schedule) && NeverLeaves(run)
    ensures i <= j && AdmitsAt(run, j)
  {
    var most, slack := StuckDrains(run, schedule, turn);
    j := ChoresEnd(run, schedule, turn, FrameOf(run(0), most, slack), i);
    if !AdmitsAt(run, j) { StepLessens(run, schedule, most, slack, j); }
  }

  /** Every fair run in which nothing is admitted from some point on leaves the loop, whatever
      the counts say. */
  lemma QuietRunsLeave(run: nat -> State, schedule: nat -> Step, turn: nat -> nat, from: nat) returns (k: nat)
    requires Reachable(run(0)) && AtLoopHead(run(0)) && IsRun(run, schedule) && Fair(schedule, turn)
    requires AllAllowed(schedule) && forall n: nat :: from <= n ==> !AdmitsAt(run, n)
    ensures !InDrain(run(k).k.w)
  {
    if n: nat :| !InDrain(run(n).k.w) {
      k := n;
    } else {
      var j := StuckMeansAdmissionsRecur(run, schedule, turn, from);
      assert false;
    }
  }
}
