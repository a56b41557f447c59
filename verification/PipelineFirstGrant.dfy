/**
  * Exactly when the capacity counter loses track without a revocation: a client opened without
  * consent is granted it while the worker is inside a purge, and can still admit events.
  */
module PipelineFirstGrant {
  import opened Events
  import opened StoreSpec
  import opened Pipeline
  import opened PipelineFlow
  import opened PipelineOrder
  import opened PipelineConsent
  import opened PipelineCapacity
  import opened PipelineConservation
  import opened PipelineReplacement
  import opened PipelinePrivacy

  /** No crash, no worker death and no revocation. */
  predicate Peaceful(steps: seq<Step>) {
    forall x :: x in steps ==> !x.Crash? && !x.Dies? && !x.Revoke?
  }

  /** Some such continuation leads to a state whose counter misses an event. */
  ghost predicate Misses(s: State) {
    exists steps :: Peaceful(steps) && Short(Exec(s, steps))
  }

  predicate Short(s: State) {
    s.k.outstanding < LoadOf(s)
  }

  lemma PeacefulStep(s: State, step: Step)
    requires Unrevoked(s) && !step.Crash? && !step.Dies? && !step.Revoke?
    ensures Unrevoked(Next(s, step))
  {
    OnlyCrashGoesDown(s, step);
    if step.Work? { WorkSpares(s, step.ok, step.fault); }
    if step.Producing? { ProducerSpares(s); }
  }

  lemma ReachableIsCalm(s: State)
    requires Reachable(s) && Unrevoked(s)
    ensures Order(s) && ConsentInv(s) && Calm(s) && Exact(s)
  {
    var cfg, steps := ReachedBy(s);
    ConservedAlways(cfg, steps);
    ReachableIsSound(s);
  }

  // ---- an exact counter stays exact once consent is granted and no purge is under way ----

  predicate Keeping(s: State) {
    && Unrevoked(s) && s.cl.consent == Granted && !Purging(s.k.w.pc) && s.k.outstanding == LoadOf(s)
  }

  lemma KeepingWork(s: State, ok: bool, fault: FetchFault)
    requires Order(s) && ConsentInv(s) && Calm(s) && Keeping(s)
    ensures var s' := WorkerNext(s, ok, fault); !Purging(s'.k.w.pc) && s'.k.outstanding == LoadOf(s')
  {
    if Moves(s.k.w.pc) {
      ReleasedMoving(s, ok, fault);
      MovingIsHarmless(s, ok, fault);
    } else {
      ReleasedQuiet(s, ok);
      QuietIsHarmless(s, ok);
    }
  }

  lemma KeepingProducer(s: State)
    requires Order(s) && Calm(s) && Keeping(s)
    ensures Keeping(ProducerNext(s))
  {
    BalancedProducer(s);
    ProducerSpares(s);
  }

  lemma KeepingOther(s: State, step: Step)
    requires Calm(s) && Keeping(s) && !step.Work? && !step.Producing?
    requires !step.Crash? && !step.Dies? && !step.Revoke?
    ensures Keeping(Next(s, step))
  {}

  lemma KeepingStep(s: State, step: Step)
    requires Reachable(s) && Keeping(s) && !step.Crash? && !step.Dies? && !step.Revoke?
    ensures Keeping(Next(s, step))
  {
    ReachableIsCalm(s);
    PeacefulStep(s, step);
    match step
    case Work(ok, fault) =>
      KeepingWork(s, ok, fault);
      WorkSpares(s, ok, fault);
    case Producing => KeepingProducer(s);
    case _ => KeepingOther(s, step);
  }

  lemma {:induction false} KeepingRun(s: State, steps: seq<Step>)
    requires Reachable(s) && Keeping(s) && Peaceful(steps)
    ensures Reachable(Exec(s, steps)) && Keeping(Exec(s, steps))
  {
    if steps != [] {
      var front := steps[..|steps| - 1];
      assert steps[|steps| - 1] in steps;
      KeepingRun(s, front);
      KeepingStep(Exec(s, front), steps[|steps| - 1]);
      StepReachable(Exec(s, front), steps[|steps| - 1]);
    }
  }

  // ---- nothing is admitted once shutdown has begun ----

  predicate Closed(s: State) {
    Unrevoked(s) && s.k.life.state != Running && LoadOf(s) == 0 && s.k.outstanding == 0
  }

  lemma ClosedWork(s: State, ok: bool, fault: FetchFault)
    requires Order(s) && Calm(s) && Closed(s)
    ensures var s' := WorkerNext(s, ok, fault); LoadOf(s') == 0 && s'.k.outstanding == 0
  {
    if s.k.w.pc.PurgeStore? || s.k.w.pc.PurgeReset? {
      ClosedPurge(s, ok, fault);
    } else if Moves(s.k.w.pc) {
      ReleasedMoving(s, ok, fault);
    } else {
      ReleasedQuiet(s, ok);
    }
  }

  lemma ClosedPurge(s: State, ok: bool, fault: FetchFault)
    requires Closed(s) && Purging(s.k.w.pc)
    ensures var s' := WorkerNext(s, ok, fault); LoadOf(s') == 0 && s'.k.outstanding == 0
  {}

  lemma LifeGoesOn(s: State, step: Step)
    requires s.up && !step.Crash? && s.k.life.state != Running
    ensures Next(s, step).k.life.state != Running
  {
    if step.Work? {
      if Moves(s.k.w.pc) { MovingKeepsState(s, step.ok, step.fault); } else { QuietKeepsState(s, step.ok); }
    }
  }

  lemma QuietKeepsState(s: State, ok: bool)
    requires !Moves(s.k.w.pc)
    ensures QuietNext(s, ok).life.state == s.k.life.state
  {}

  lemma MovingKeepsState(s: State, ok: bool, fault: FetchFault)
    requires Moves(s.k.w.pc)
    ensures MovingNext(s, ok, fault).k.life.state == s.k.life.state
  {}

  lemma ClosedProducer(s: State)
    requires Pending(s.cl, |s.log.admitted|) && Closed(s)
    ensures LoadOf(ProducerNext(s)) == 0 && ProducerNext(s).k.outstanding == 0
  {}

  lemma ClosedOther(s: State, step: Step)
    requires Calm(s) && Closed(s) && !step.Work? && !step.Producing?
    requires !step.Crash? && !step.Dies? && !step.Revoke?
    ensures LoadOf(Next(s, step)) == 0 && Next(s, step).k.outstanding == 0
  {}

  lemma ClosedStep(s: State, step: Step)
    requires Reachable(s) && Closed(s) && !step.Crash? && !step.Dies? && !step.Revoke?
    ensures Closed(Next(s, step))
  {
    ReachableIsCalm(s);
    PeacefulStep(s, step);
    LifeGoesOn(s, step);
    match step
    case Work(ok, fault) => ClosedWork(s, ok, fault);
    case Producing => ClosedProducer(s);
    case _ => ClosedOther(s, step);
  }

  lemma {:induction false} ClosedRun(s: State, steps: seq<Step>)
    requires Reachable(s) && Closed(s) && Peaceful(steps)
    ensures Reachable(Exec(s, steps)) && Closed(Exec(s, steps))
  {
    if steps != [] {
      var front := steps[..|steps| - 1];
      assert steps[|steps| - 1] in steps;
      ClosedRun(s, front);
      ClosedStep(Exec(s, front), steps[|steps| - 1]);
      StepReachable(Exec(s, front), steps[|steps| - 1]);
    }
  }

  // ---- a purge under way forgets an event admitted meanwhile ----

  lemma Sooner(s: State, step: Step)
    requires !step.Crash? && !step.Dies? && !step.Revoke? && Misses(Next(s, step))
    ensures Misses(s)
  {
    var t := Next(s, step);
    var steps :| Peaceful(steps) && Short(Exec(t, steps));
    assert Exec(s, [step]) == t by { assert [step][..0] == [] && Exec(s, []) == s; }
    ExecSplit(s, [step], steps);
    assert Peaceful([step] + steps) && Exec(s, [step] + steps) == Exec(t, steps);
  }

  lemma MissesNow(s: State)
    requires Short(s)
    ensures Misses(s)
  {
    assert Peaceful([]) && Exec(s, []) == s;
  }

  lemma ResetMisses(s: State)
    requires s.up && s.k.w.pc.PurgeReset? && s.cl.p.pend != []
    ensures Misses(s)
  {
    var t := Next(s, WORK);
    assert t == s.(k := CountReset(s));
    MissesNow(t);
    Sooner(s, WORK);
  }

  lemma CountedMisses(s: State)
    requires s.up && Purging(s.k.w.pc) && s.cl.p.pend != []
    ensures Misses(s)
  {
    if s.k.w.pc.PurgeReset? {
      ResetMisses(s);
    } else {
      assert Next(s, WORK) == Purged(s);
      ResetMisses(Next(s, WORK));
      Sooner(s, WORK);
    }
  }

  /** An admission is under way that nothing stops. */
  predicate Entering(s: State) {
    && s.up && Purging(s.k.w.pc) && s.cl.consent == Granted && s.cl.session.active && ValidConfig(s.cfg)
    && s.k.life.state == Running && !s.k.life.terminated && s.k.outstanding == 0 && s.b.queue == []
    && (s.cl.p.pc.Gate? || s.cl.p.pc.Checks?)
  }

  lemma CheckedMisses(s: State)
    requires Entering(s) && s.cl.p.pc.Checks?
    ensures Misses(s)
  {
    assert Next(s, Producing) == Counted(s);
    CountedMisses(Next(s, Producing));
    Sooner(s, Producing);
  }

  lemma AdmittingMisses(s: State)
    requires Entering(s)
    ensures Misses(s)
  {
    if s.cl.p.pc.Checks? {
      CheckedMisses(s);
    } else {
      var t := Next(s, Producing);
      assert t == ProducerAt(s, s.cl.p.(pc := Checks));
      CheckedMisses(t);
      Sooner(s, Producing);
    }
  }

  /** The worker is inside a purge with nothing held, and callers are served. */
  predicate Exposed(s: State) {
    && s.up && Purging(s.k.w.pc) && s.cl.consent == Granted && ValidConfig(s.cfg) && AdmissionFree(s)
    && s.k.life.state == Running && !s.k.life.terminated && s.k.outstanding == 0 && s.b.queue == []
  }

  lemma TrackMisses(s: State)
    requires Exposed(s) && s.cl.session.active
    ensures Misses(s)
  {
    var step := Track(s.cl.gen, MARKER_PAYLOAD);
    assert Entering(Next(s, step));
    AdmittingMisses(Next(s, step));
    Sooner(s, step);
  }

  lemma StartMisses(s: State)
    requires Exposed(s) && !s.cl.session.active
    ensures Misses(s)
  {
    var step := StartSession("", 0);
    var t := Next(s, step);
    assert t == Starting(s, "", 0);
    assert Next(t, Producing) == FirstSession(t) && Entering(Next(t, Producing));
    AdmittingMisses(Next(t, Producing));
    Sooner(t, Producing);
    Sooner(s, step);
  }

  lemma ExposedMisses(s: State)
    requires Exposed(s)
    ensures Misses(s)
  {
    if s.cl.session.active { TrackMisses(s); } else { StartMisses(s); }
  }

  // ---- the theorems ----

  /** From any state of an unrevoked run in which consent is granted, no purge is under way and the
      counter is exact, it stays exact, and the limit is kept, as long as nothing crashes, dies or
      is revoked. An opening with consent is such a state. */
  lemma ExactnessLasts(s: State, steps: seq<Step>)
    requires Reachable(s) && Unrevoked(s) && s.cl.consent == Granted && !Purging(s.k.w.pc)
    requires s.k.outstanding == LoadOf(s) && Peaceful(steps)
    ensures var t := Exec(s, steps);
            t.k.outstanding == LoadOf(t) && |Held(t.b)| <= Max(t.cfg.cap, t.run.recovered)
  {
    KeepingRun(s, steps);
    Conservation(Exec(s, steps));
  }

  /** The last step of the first grant. */
  predicate GrantsFirst(s: State) {
    Unrevoked(s) && s.cl.c.pc.SetGranted? && s.cl.consent != Granted && AdmissionFree(s)
  }

  lemma GrantedState(s: State)
    requires Reachable(s) && GrantsFirst(s)
    ensures var t := ConsentGranted(s);
            && Reachable(t) && Unrevoked(t) && t.k == s.k && t.b == s.b && LoadOf(t) == 0 && t.k.outstanding == 0
            && ValidConfig(t.cfg) && !t.k.life.terminated
  {
    ReachableIsCalm(s);
    StepReachable(s, Consenting(true));
    assert Next(s, Consenting(true)) == ConsentGranted(s);
    var cfg, steps := ReachedBy(s);
    ReplaceAlways(cfg, steps);
  }

  /** After the first grant the counter can come to miss an event exactly if the grant falls into a
      purge of the worker's and events can still be admitted. */
  lemma CounterMissesIffPurging(s: State)
    requires Reachable(s) && GrantsFirst(s)
    ensures Misses(ConsentGranted(s)) <==> Purging(s.k.w.pc) && s.k.life.state == Running
  {
    var t := ConsentGranted(s);
    GrantedState(s);
    if Purging(s.k.w.pc) && s.k.life.state == Running {
      NothingIsHeld(s.b);
      ExposedMisses(t);
    } else if Misses(t) {
      var steps :| Peaceful(steps) && Short(Exec(t, steps));
      if Purging(s.k.w.pc) { ClosedRun(t, steps); } else { KeepingRun(t, steps); }
    }
  }

  /** Otherwise the counter stays exact, and the limit is kept. */
  lemma LimitKeptAfterGrant(s: State, steps: seq<Step>)
    requires Reachable(s) && GrantsFirst(s) && Peaceful(steps)
    requires !(Purging(s.k.w.pc) && s.k.life.state == Running)
    ensures var t := Exec(ConsentGranted(s), steps);
            t.k.outstanding == LoadOf(t) && |Held(t.b)| <= Max(t.cfg.cap, t.run.recovered)
  {
    GrantedState(s);
    if Purging(s.k.w.pc) {
      ClosedRun(ConsentGranted(s), steps);
    } else {
      ExactnessLasts(ConsentGranted(s), steps);
    }
  }
}
