/**
  * What the `delivered` counter may still count once a revocation's purge has committed: exactly
  * the batch whose acknowledgment the worker had already committed, and that batch at most once.
  */
module PipelineDelivered {
  import opened Events
  import opened StoreSpec
  import opened Pipeline
  import opened PipelineFlow
  import opened PipelineOrder
  import opened PipelineConsent
  import opened PipelinePrivacy

  /** Events of `es` admitted before `below`. */
  function CountBelow(es: seq<Event>, below: nat): nat {
    if es == [] then 0 else CountBelow(es[1..], below) + if es[0].id < below then 1 else 0
  }

  lemma {:induction false} CountAll(es: seq<Event>, below: nat)
    requires forall e :: e in es ==> e.id < below
    ensures CountBelow(es, below) == |es|
  {
    if es != [] {
      assert es[0] in es;
      CountAll(es[1..], below);
    }
  }

  lemma {:induction false} CountNone(es: seq<Event>, below: nat)
    requires forall e :: e in es ==> e.id >= below
    ensures CountBelow(es, below) == 0
  {
    if es != [] {
      assert es[0] in es;
      CountNone(es[1..], below);
    }
  }

  // ---- what is acknowledged and not yet counted ----

  predicate Settling(s: State) {
    s.up && s.k.w.pc.SettleAck?
  }

  function Unsettled(s: State): nat {
    if Settling(s) then s.k.w.settle else 0
  }

  /** The worker settles for the batch it has acknowledged. */
  predicate SettleOk(s: State) {
    Settling(s) ==>
      s.k.w.settle == |s.k.w.batch| && forall e :: e in s.k.w.batch ==> e.id < |s.log.admitted|
  }

  lemma SettleAcked(s: State)
    requires Order(s) && s.k.w.pc.Ack? && |Removed(s.b.rows, s.k.w.batch)| == |s.k.w.batch|
    ensures forall e :: e in s.k.w.batch ==> e in s.b.rows && e.id < |s.log.admitted|
  {
    BatchIsRows(s);
    HeldAll(s.b);
  }

  lemma BatchIsRows(s: State)
    requires Order(s) && s.k.w.pc.Ack? && |Removed(s.b.rows, s.k.w.batch)| == |s.k.w.batch|
    ensures forall e :: e in s.k.w.batch ==> e in s.b.rows
  {
    AckAllOrNone(s);
    if s.b.rows != [] { UsableSplit(s.b.rows[..s.k.w.scanned]); }
  }

  lemma OnlyAckSettles(s: State, ok: bool, fault: FetchFault)
    requires WorkerNext(s, ok, fault).k.w.pc.SettleAck?
    ensures s.k.w.pc.Ack? && ok && |Removed(s.b.rows, s.k.w.batch)| == |s.k.w.batch|
    ensures WorkerNext(s, ok, fault) == Acknowledged(s)
  {
    if Moves(s.k.w.pc) { MovingFlow(s, ok, fault); } else { QuietFlow(s, ok); }
  }

  lemma OthersKeepLog(s: State, step: Step)
    requires s.up && !step.Work?
    ensures |s.log.admitted| <= |NextUp(s, step).log.admitted|
  {}

  lemma OpensUnsettled(s: State, step: Step)
    requires !s.up
    ensures !Settling(Next(s, step))
  {}

  lemma SettleStep(s: State, step: Step)
    requires Order(s) && SettleOk(s)
    ensures SettleOk(Next(s, step))
  {
    if !s.up {
      OpensUnsettled(s, step);
    } else if step.Work? {
      if WorkerNext(s, step.ok, step.fault).k.w.pc.SettleAck? {
        OnlyAckSettles(s, step.ok, step.fault);
        SettleAcked(s);
      }
    } else {
      OthersSpareWorker(s, step);
      OthersKeepLog(s, step);
    }
  }

  lemma {:induction false} SettleAlways(cfg: Config, steps: seq<Step>)
    requires ValidConfig(cfg)
    ensures SettleOk(Exec(Init(cfg), steps))
  {
    if steps != [] {
      var front := steps[..|steps| - 1];
      SettleAlways(cfg, front);
      OrderAlways(cfg, front);
      SettleStep(Exec(Init(cfg), front), steps[|steps| - 1]);
    }
  }

  lemma ReachableSettles(s: State)
    requires Reachable(s)
    ensures SettleOk(s)
  {
    var cfg, steps := ReachedBy(s);
    SettleAlways(cfg, steps);
  }

  // ---- counting late ----

  /** How many events from before `below` this step adds to `delivered`. */
  function LateCount(s: State, step: Step, below: nat): nat {
    if Settling(s) && step.Work? then CountBelow(s.k.w.batch, below) else 0
  }

  function LateCounts(s: State, steps: seq<Step>, below: nat): nat {
    if steps == [] then 0
    else
      var front := steps[..|steps| - 1];
      LateCounts(s, front, below) + LateCount(Exec(s, front), steps[|steps| - 1], below)
  }

  function Owing(s: State, below: nat): nat {
    if Settling(s) then CountBelow(s.k.w.batch, below) else 0
  }

  lemma OwingWork(s: State, ok: bool, fault: FetchFault, below: nat)
    requires Sound(s) && s.up && s.log.purgedBelow >= below
    ensures Owing(WorkerNext(s, ok, fault), below) == 0
  {
    var s' := WorkerNext(s, ok, fault);
    if s'.k.w.pc.SettleAck? {
      OnlyAckSettles(s, ok, fault);
      SettleAcked(s);
      CountNone(s.k.w.batch, below);
    }
  }

  lemma OwingOther(s: State, step: Step, below: nat)
    requires !step.Work?
    ensures Owing(Next(s, step), below) == Owing(s, below) || Owing(Next(s, step), below) == 0
  {
    if s.up { OthersSpareWorker(s, step); } else { OpensUnsettled(s, step); }
  }

  /** Once everything from before `below` is purged, what is owed is counted at once and then
      owed no more, or stays owed, or is forgotten. */
  lemma OwingStep(s: State, step: Step, below: nat)
    requires Sound(s) && s.log.purgedBelow >= below
    ensures var owing, now, late := Owing(s, below), Owing(Next(s, step), below), LateCount(s, step, below);
            (late == owing && now == 0) || (late == 0 && (now == owing || now == 0))
  {
    if s.up && step.Work? {
      OwingWork(s, step.ok, step.fault, below);
    } else if !step.Work? {
      OwingOther(s, step, below);
    }
  }

  lemma {:induction false} LateCountsRun(s: State, steps: seq<Step>, below: nat)
    requires Sound(s) && s.log.purgedBelow >= below
    ensures var owing, now, late := Owing(s, below), Owing(Exec(s, steps), below), LateCounts(s, steps, below);
            (late == owing && now == 0) || (late == 0 && (now == owing || now == 0))
  {
    if steps != [] {
      var front := steps[..|steps| - 1];
      LateCountsRun(s, front, below);
      SoundRun(s, front);
      BoundsRun(s, front);
      OwingStep(Exec(s, front), steps[|steps| - 1], below);
    }
  }

  lemma CompletedOwes(s: State)
    requires Reachable(s) && PurgeCompleted(s)
    ensures s.log.purgedBelow >= |s.log.admitted| && Owing(s, |s.log.admitted|) == Unsettled(s)
  {
    ReachableIsSound(s);
    ReachableSettles(s);
    if Settling(s) { CountAll(s.k.w.batch, |s.log.admitted|); }
  }

  /** From the commit of a revocation's purge on, in every continuation, the events admitted
      before it that are still counted as delivered are those of one acknowledgment that was
      waiting to be settled, all of them and once, or none. */
  lemma LateCountsAreOneBatch(s: State, steps: seq<Step>)
    requires Reachable(s) && PurgeCompleted(s)
    ensures var late := LateCounts(s, steps, |s.log.admitted|); late == Unsettled(s) || late == 0
  {
    CompletedOwes(s);
    ReachableIsSound(s);
    LateCountsRun(s, steps, |s.log.admitted|);
  }

  /** Some continuation without a crash counts an event from before `below`. */
  ghost predicate CountsLate(s: State, below: nat) {
    exists steps :: Crash !in steps && LateCounts(s, steps, below) >= 1
  }

  /** That happens exactly if the worker, when the purge commits, has acknowledged a batch and
      not yet settled for it. */
  lemma CountsLateIffUnsettled(s: State)
    requires Reachable(s) && PurgeCompleted(s)
    ensures CountsLate(s, |s.log.admitted|) <==> s.k.w.pc.SettleAck? && s.k.w.settle > 0
  {
    CompletedOwes(s);
    if CountsLate(s, |s.log.admitted|) {
      var steps :| Crash !in steps && LateCounts(s, steps, |s.log.admitted|) >= 1;
      LateCountsAreOneBatch(s, steps);
    }
    if s.k.w.pc.SettleAck? && s.k.w.settle > 0 {
      var steps := [WORK];
      assert steps[..0] == [] && Exec(s, []) == s && LateCounts(s, [], |s.log.admitted|) == 0;
      assert Crash !in steps && LateCounts(s, steps, |s.log.admitted|) >= 1;
    }
  }

  /** The counter grows in no other way: by the whole batch, when the worker settles for it. */
  lemma DeliveredOnlyBySettling(s: State, step: Step)
    requires Reachable(s) && s.up && !step.Crash?
    ensures Next(s, step).k.stats.delivered
            == s.k.stats.delivered + (if Settling(s) && step.Work? then |s.k.w.batch| else 0)
  {
    ReachableSettles(s);
    if step.Work? { WorkCounts(s, step.ok, step.fault); } else { OthersCountNothing(s, step); }
  }

  lemma WorkCounts(s: State, ok: bool, fault: FetchFault)
    ensures WorkerNext(s, ok, fault).k.stats.delivered
            == s.k.stats.delivered + (if s.k.w.pc.SettleAck? then s.k.w.settle else 0)
  {
    if Moves(s.k.w.pc) { MovingCountsNothing(s, ok, fault); }
  }

  lemma MovingCountsNothing(s: State, ok: bool, fault: FetchFault)
    requires Moves(s.k.w.pc)
    ensures MovingNext(s, ok, fault).k.stats.delivered == s.k.stats.delivered
  {}

  lemma OthersCountNothing(s: State, step: Step)
    requires s.up && !step.Work? && !step.Crash?
    ensures NextUp(s, step).k.stats.delivered == s.k.stats.delivered
  {}

  // ---- every other increase is a later acknowledgment ----

  /** The counter and what is still to be settled move with the acknowledgments. */
  predicate Tallies(s: State, s': State) {
    && |s.fate.acked| <= |s'.fate.acked|
    && s'.k.stats.delivered + Unsettled(s')
       == s.k.stats.delivered + Unsettled(s) + (|s'.fate.acked| - |s.fate.acked|)
  }

  lemma AckSettles(s: State, ok: bool, fault: FetchFault)
    requires Order(s) && s.up && s.k.w.pc.Ack?
    ensures Tallies(s, MovingNext(s, ok, fault))
  {
    AckAllOrNone(s);
  }

  lemma MovingSettles(s: State, ok: bool, fault: FetchFault)
    requires s.up && Moves(s.k.w.pc) && !s.k.w.pc.Ack?
    ensures Tallies(s, MovingNext(s, ok, fault))
  {
    MovingFlow(s, ok, fault);
  }

  lemma QuietSettles(s: State, ok: bool)
    requires s.up && !Moves(s.k.w.pc)
    ensures Tallies(s, s.(k := QuietNext(s, ok)))
  {
    QuietFlow(s, ok);
  }

  lemma OthersSettle(s: State, step: Step)
    requires s.up && !step.Work? && !step.Crash? && !step.Dies?
    ensures Tallies(s, NextUp(s, step))
  {}

  lemma SettlesStep(s: State, step: Step)
    requires Order(s) && s.up && !step.Crash? && !step.Dies?
    ensures Tallies(s, Next(s, step)) && Next(s, step).up
  {
    if !step.Work? {
      OthersSettle(s, step);
      OnlyCrashGoesDown(s, step);
    } else {
      WorkSpares(s, step.ok, step.fault);
      if s.k.w.pc.Ack? {
        AckSettles(s, step.ok, step.fault);
      } else if Moves(s.k.w.pc) {
        MovingSettles(s, step.ok, step.fault);
      } else {
        QuietSettles(s, step.ok);
      }
    }
  }

  lemma {:induction false} SettlesRun(s: State, steps: seq<Step>)
    requires Sound(s) && s.up && Crash !in steps && Dies !in steps
    ensures Tallies(s, Exec(s, steps)) && Exec(s, steps).up
  {
    if steps != [] {
      var front := steps[..|steps| - 1];
      assert steps[|steps| - 1] in steps;
      SettlesRun(s, front);
      SoundRun(s, front);
      SettlesStep(Exec(s, front), steps[|steps| - 1]);
    }
  }

  /** From the commit of the purge on, while the process and the worker live, the counter grows by
      the batch that was waiting to be settled and by acknowledgments of events admitted later. */
  lemma DeliveredAfterPurge(s: State, steps: seq<Step>)
    requires Reachable(s) && PurgeCompleted(s) && Crash !in steps && Dies !in steps
    ensures var t := Exec(s, steps);
            && Extends(s.fate.acked, t.fate.acked, |s.log.admitted|)
            && t.k.stats.delivered + Unsettled(t)
               == s.k.stats.delivered + Unsettled(s) + (|t.fate.acked| - |s.fate.acked|)
  {
    ReachableIsSound(s);
    CompletedOwes(s);
    AckedAfter(s, steps);
    SettlesRun(s, steps);
  }
}
