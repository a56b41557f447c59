/**
  * Conservation: as long as consent is not revoked and the worker does not die, under arbitrary
  * storage and sink faults, every event is counted exactly once. The capacity counter is exact
  * unless consent was first granted while a purge was under way, which may then reset it once, so
  * that more than the limit can be pending.
  */
module PipelineConservation {
  import opened Events
  import opened StoreSpec
  import opened Pipeline
  import opened PipelineFlow
  import opened PipelineOrder
  import opened PipelineConsent
  import opened PipelineLedger
  import opened PipelineCapacity

  /** A run in which consent was not revoked and the worker did not die. */
  predicate Unrevoked(s: State) {
    s.up && !s.run.revoked && !s.run.died
  }

  /** What the worker has in hand at its consent checks. */
  predicate HandsFull(pc: WorkerPc, b: Buffers) {
    && (pc.LatchGen? || pc.ReadConsent? ==> b.hand != [])
    && (pc.BoundaryConsent? || pc.BoundaryGen? ==> b.keep != [])
  }

  /** The worker discards nothing; a purge it is in finds the store empty. */
  predicate Harmless(w: Worker, b: Buffers) {
    && !w.pc.DiscardBatch? && !w.pc.DiscardKeep? && HandsFull(w.pc, b)
    && (Purging(w.pc) ==> !w.fromProcess && b == Buffers([], [], [], [], b.queue))
  }

  /** No revocation has begun, and without consent nothing is held. */
  predicate Calm(s: State) {
    && s.cl.gen == 0 && !s.cl.purgeRequired
    && (s.cl.c.pc.ConsentIdle? || s.cl.c.pc.SetGranted?)
    && Tallied(s.k.w, s.cl.c) && Harmless(s.k.w, s.b)
    && (s.cl.consent != Granted ==> LoadOf(s) == 0)
    && |s.b.queue| + |s.cl.p.pend| <= s.cfg.queueCap
  }

  /** How far the counter may lag behind what is held. */
  predicate Lags(s: State) {
    && s.k.outstanding <= LoadOf(s) <= s.k.outstanding + Min(s.cfg.cap, s.cfg.queueCap)
    && s.k.outstanding <= Max(s.cfg.cap, s.run.recovered)
    && (s.cl.consent != Granted || Purging(s.k.w.pc) || !s.run.caught ==> s.k.outstanding == LoadOf(s))
    && (s.cl.consent == Granted && !s.run.caught ==> !Purging(s.k.w.pc))
    && (s.run.recovered > 0 ==> s.cl.consent == Granted && !s.run.caught)
  }

  predicate Exact(s: State) {
    s.run.recovered + s.k.stats.accepted == Traced(s) && Lags(s)
  }

  predicate Conserved(s: State) {
    Unrevoked(s) ==> Calm(s) && Exact(s)
  }

  // ---- worker steps ----

  lemma ExactReleased(s: State, s': State)
    requires Calm(s) && Exact(s) && Releases(s, s') && Traces(s, s')
    requires s'.run == s.run && s'.cfg == s.cfg && s'.cl == s.cl && |s'.b.queue| <= |s.b.queue|
    requires Harmless(s'.k.w, s'.b) && (Purging(s'.k.w.pc) ==> s.cl.consent != Granted || Purging(s.k.w.pc))
    ensures Calm(s') && Exact(s')
  {}

  lemma NothingIsHeld(b: Buffers)
    requires |Held(b)| == 0
    ensures b == Buffers([], [], [], [], [])
  {}

  /** With consent every check passes. */
  lemma GrantedIsHarmless(s: State, ok: bool)
    requires WorkerOk(s.k.w.pc, s.k.w.gen, s.b, s.cl, s.marker, s.run.boundary, s.log.markBelow)
    requires s.cl.gen == 0 && s.cl.consent == Granted && Harmless(s.k.w, s.b) && !Moves(s.k.w.pc) && !Purging(s.k.w.pc)
    ensures var w := QuietNext(s, ok).w; Harmless(w, s.b) && !Purging(w.pc)
  {
    QuietFlow(s, ok);
    match s.k.w.pc
    case ReadConsent =>
    case BoundaryConsent =>
    case BoundaryGen =>
    case DeliverConsent =>
    case PreWriteConsent =>
    case RecheckConsent =>
    case RecheckGen =>
    case _ =>
  }

  /** Without consent nothing is in hand. */
  lemma DeniedIsHarmless(s: State, ok: bool)
    requires s.b == Buffers([], [], [], [], []) && s.cl.consent != Granted
    requires WorkerOk(s.k.w.pc, s.k.w.gen, s.b, s.cl, s.marker, s.run.boundary, s.log.markBelow)
    requires s.cl.gen == 0 && Harmless(s.k.w, s.b) && !Moves(s.k.w.pc) && !Purging(s.k.w.pc)
    ensures Harmless(QuietNext(s, ok).w, s.b)
  {
    QuietFlow(s, ok);
  }

  lemma QuietIsHarmless(s: State, ok: bool)
    requires ConsentInv(s) && Calm(s) && !Moves(s.k.w.pc) && !Purging(s.k.w.pc)
    ensures var w := QuietNext(s, ok).w;
            Harmless(w, s.b) && (Purging(w.pc) ==> s.cl.consent != Granted)
  {
    if s.cl.consent == Granted {
      GrantedIsHarmless(s, ok);
    } else {
      NothingIsHeld(s.b);
      DeniedIsHarmless(s, ok);
    }
  }

  lemma TakenIsHarmless(s: State, ok: bool, fault: FetchFault)
    requires s.k.w.pc.TakeRetry?
    ensures var s' := MovingNext(s, ok, fault); Harmless(s'.k.w, s'.b) && !Purging(s'.k.w.pc)
  {}

  lemma SiftIsHarmless(s: State, ok: bool, fault: FetchFault)
    requires s.k.w.pc.Sift?
    ensures var s' := MovingNext(s, ok, fault); Harmless(s'.k.w, s'.b) && !Purging(s'.k.w.pc)
  {}

  lemma MovingIsHarmless(s: State, ok: bool, fault: FetchFault)
    requires Harmless(s.k.w, s.b) && Moves(s.k.w.pc) && !s.k.w.pc.PurgeStore?
    ensures var s' := MovingNext(s, ok, fault); Harmless(s'.k.w, s'.b) && !Purging(s'.k.w.pc)
  {
    if s.k.w.pc.TakeRetry? {
      TakenIsHarmless(s, ok, fault);
    } else if s.k.w.pc.Sift? {
      SiftIsHarmless(s, ok, fault);
    } else {
      MovingFlow(s, ok, fault);
    }
  }

  lemma NothingIsStale(s: State)
    requires ConsentInv(s) && Calm(s)
    ensures NothingStale(s.k.w, s.b)
  {
    if s.k.w.pc.Sift? && s.b.hand != [] { assert s.b.hand[0] in s.b.hand; }
  }

  lemma ExactMoving(s: State, ok: bool, fault: FetchFault)
    requires Order(s) && ConsentInv(s) && Calm(s) && Exact(s) && Moves(s.k.w.pc) && !s.k.w.pc.PurgeStore?
    ensures Calm(MovingNext(s, ok, fault)) && Exact(MovingNext(s, ok, fault))
  {
    NothingIsStale(s);
    ReleasedMoving(s, ok, fault);
    MovingCallers(s, ok, fault);
    MovingIsHarmless(s, ok, fault);
    WorkerFrees(s, ok, fault);
    ExactReleased(s, MovingNext(s, ok, fault));
  }

  lemma ExactPurge(s: State, ok: bool, fault: FetchFault)
    requires Calm(s) && Exact(s) && s.k.w.pc.PurgeStore?
    ensures Calm(MovingNext(s, ok, fault)) && Exact(MovingNext(s, ok, fault))
  {}

  /** The reset forgets what was admitted while the purge was under way. */
  lemma ExactReset(s: State)
    requires Calm(s) && Exact(s) && s.k.w.pc.PurgeReset?
    ensures var s' := s.(k := CountReset(s)); Calm(s') && Exact(s')
  {}

  lemma ExactQuiet(s: State, ok: bool)
    requires Order(s) && ConsentInv(s) && Calm(s) && Exact(s) && !Moves(s.k.w.pc) && !s.k.w.pc.PurgeReset?
    ensures var s' := s.(k := QuietNext(s, ok)); Calm(s') && Exact(s')
  {
    ReleasedQuiet(s, ok);
    QuietIsHarmless(s, ok);
    ExactReleased(s, s.(k := QuietNext(s, ok)));
  }

  lemma ExactWorker(s: State, ok: bool, fault: FetchFault)
    requires Order(s) && ConsentInv(s) && Calm(s) && Exact(s)
    ensures Calm(WorkerNext(s, ok, fault)) && Exact(WorkerNext(s, ok, fault))
  {
    if s.k.w.pc.PurgeStore? {
      ExactPurge(s, ok, fault);
    } else if s.k.w.pc.PurgeReset? {
      ExactReset(s);
    } else if Moves(s.k.w.pc) {
      ExactMoving(s, ok, fault);
    } else {
      ExactQuiet(s, ok);
    }
  }

  // ---- producers and the consent caller ----

  lemma ExactProducer(s: State)
    requires Order(s) && Calm(s) && Exact(s)
    ensures Calm(ProducerNext(s)) && Exact(ProducerNext(s))
  {
    BalancedProducer(s);
    ProducerSpares(s);
    ProducerCounts(s);
    ProducerKeepsBuffers(s);
  }

  lemma ExactConsent(s: State, ok: bool)
    requires Calm(s) && Exact(s)
    ensures Calm(ConsentNext(s, ok)) && Exact(ConsentNext(s, ok))
  {}

  // ---- every step, every run ----

  lemma ExactOther(s: State, step: Step)
    requires Unrevoked(s) && Calm(s) && Exact(s) && !step.Work? && !step.Producing? && !step.Consenting?
    ensures Conserved(NextUp(s, step))
  {}

  lemma ConservedOpened(s: State, step: Step)
    requires step.Open? && !s.up && NoMemory(s)
    ensures Conserved(Next(s, step))
  {}

  lemma RevokedStays(s: State, step: Step)
    requires s.up && !Unrevoked(s)
    ensures !Unrevoked(Next(s, step))
  {}

  lemma ConservedStep(s: State, step: Step)
    requires Order(s) && ConsentInv(s) && NoMemory(s) && Conserved(s)
    ensures Conserved(Next(s, step))
  {
    if !s.up {
      if step.Open? { ConservedOpened(s, step); }
    } else if !Unrevoked(s) {
      RevokedStays(s, step);
    } else {
      match step
      case Work(ok, fault) => ExactWorker(s, ok, fault);
      case Producing => ExactProducer(s);
      case Consenting(ok) => ExactConsent(s, ok);
      case _ => ExactOther(s, step);
    }
  }

  lemma {:induction false} ConservedAlways(cfg: Config, steps: seq<Step>)
    requires ValidConfig(cfg)
    ensures Conserved(Exec(Init(cfg), steps))
  {
    if steps != [] {
      var front := steps[..|steps| - 1];
      ConservedAlways(cfg, front);
      ConsentAlways(cfg, front);
      AccountsAlways(cfg, front);
      ConservedStep(Exec(Init(cfg), front), steps[|steps| - 1]);
    }
  }

  /** recovered + accepted = queued + in hand + retry + stored + delivered + dropped_invalid.
      `settle` is what the worker has taken from the store and not yet moved to its counter.
      What is pending stays within the limit and once more what the queue takes of it, or what the
      run recovered. */
  lemma Conservation(s: State)
    requires Reachable(s) && Unrevoked(s)
    ensures s.run.recovered + s.k.stats.accepted
            == |s.b.queue| + (|s.b.keep| + |s.b.hand|) + |s.b.retry| + |s.b.rows|
               + s.k.w.settle + s.k.stats.delivered + s.k.stats.droppedInvalid
    ensures |Held(s.b)| <= Max(s.cfg.cap + Min(s.cfg.cap, s.cfg.queueCap), s.run.recovered)
    ensures s.k.outstanding <= Max(s.cfg.cap, s.run.recovered)
  {
    var cfg, steps := ReachedBy(s);
    ConservedAlways(cfg, steps);
  }

  /** As long as the first grant did not fall into a purge of the worker's, the counter is exact as
      well, and the limit on pending events is never exceeded. */
  lemma CounterIsExact(s: State)
    requires Reachable(s) && Unrevoked(s) && !s.run.caught
    ensures s.k.outstanding
            == |s.b.queue| + (|s.b.keep| + |s.b.hand|) + |s.b.retry| + |s.b.rows| + s.k.w.settle + |s.cl.p.pend|
    ensures |Held(s.b)| <= Max(s.cfg.cap, s.run.recovered)
  {
    var cfg, steps := ReachedBy(s);
    ConservedAlways(cfg, steps);
  }
}
