/**
  * One step of any thread while a flush pass drains, consent granted: the worker advances and
  * the other threads leave the measure alone.
  */
module PipelineDrainSteps {
  import opened Events
  import opened StoreSpec
  import opened Pipeline
  import opened PipelineFlow
  import opened PipelineOrder
  import opened PipelineConsent
  import opened PipelineLedger
  import opened PipelineCapacity
  import opened PipelineTokens
  import opened PipelineFlush
  import opened PipelineDrain

  predicate Storable(p: Payload) {
    p.serializes && p.parses
  }

  predicate AllStorable(held: seq<Event>, p: Producer) {
    && (forall e :: e in held ==> Storable(e.payload))
    && (forall e :: e in p.pend ==> Storable(e.payload))
    && (!p.pc.ProducerIdle? && !p.pc.Reserve? ==> Storable(p.payload))
  }

  /** Consent calls, worker death and crashes are excluded; producers send what can be stored. */
  predicate Allowed(step: Step) {
    && !step.Revoke? && !step.Grant? && !step.Dies? && !step.Crash?
    && (step.Track? ==> Storable(step.payload))
  }

  /** The invariants of the other properties, which every step keeps. */
  predicate Safe(s: State) {
    Order(s) && ConsentInv(s) && Tokens(s) && FlushInv(s) && CapacityOk(s) && QueueOff(s) && NoMemory(s)
  }

  lemma SafeStep(s: State, step: Step)
    requires Safe(s) && s.up
    ensures Safe(Next(s, step))
  {
    OrderStep(s, step);
    ConsentStep(s, step);
    TokensUp(s, step);
    FlushUp(s, step);
    CapacityStep(s, step);
    QueueOffStep(s, step);
    NoMemoryStep(s, step);
  }

  lemma SafeAlways(s: State)
    requires Reachable(s)
    ensures Safe(s)
  {
    var cfg, steps := ReachedBy(s);
    ConsentAlways(cfg, steps);
    TokensAlways(cfg, steps);
    FlushAlways(cfg, steps);
    CapacityAlways(cfg, steps);
    QueueOffAlways(cfg, steps);
    AccountsAlways(cfg, steps);
  }

  /** The process is up, the worker alive, and no consent call under way. */
  predicate Steady(s: State) {
    s.up && !s.run.died && s.cl.c.pc.ConsentIdle?
  }

  /** The counter has stayed at or below `most`, and misses at most `slack` of what is held. */
  predicate Within(s: State, most: nat, slack: nat) {
    s.cfg.cap <= most && s.k.outstanding <= most && LoadOf(s) <= s.k.outstanding + slack
  }

  predicate Draining(s: State, most: nat, slack: nat) {
    && Safe(s) && Steady(s) && s.cl.consent == Granted
    && AllStorable(Held(s.b), s.cl.p)
    && LoopOk(s.k.w, s.b, s.cl.gen)
    && Within(s, most, slack)
  }

  function FrameOf(s: State, most: nat, slack: nat): Frame {
    Frame(s.cl.gen, most + slack)
  }

  // ---- the worker ----

  lemma WorkHeld(s: State, ok: bool, fault: FetchFault)
    requires Order(s)
    ensures HeldFrom(s, WorkerNext(s, ok, fault))
  {
    if Moves(s.k.w.pc) { MovingHeld(s, ok, fault); }
  }

  lemma ReleaseKeepsWithin(s: State, s': State, most: nat, slack: nat)
    requires Within(s, most, slack) && Releases(s, s') && s'.cfg == s.cfg
    ensures Within(s', most, slack)
  {}

  lemma WorkWithin(s: State, ok: bool, fault: FetchFault, most: nat, slack: nat)
    requires Order(s) && Tallied(s.k.w, s.cl.c) && Within(s, most, slack)
    requires !s.k.w.pc.PurgeStore? && !s.k.w.pc.PurgeReset?
    ensures Within(WorkerNext(s, ok, fault), most, slack)
  {
    WorkSpares(s, ok, fault);
    if Moves(s.k.w.pc) { ReleasedMoving(s, ok, fault); } else { ReleasedQuiet(s, ok); }
    ReleaseKeepsWithin(s, WorkerNext(s, ok, fault), most, slack);
  }

  lemma StillStorable(s: State, s': State)
    requires AllStorable(Held(s.b), s.cl.p) && HeldFrom(s, s') && s'.cl == s.cl
    ensures AllStorable(Held(s'.b), s'.cl.p)
  {}

  lemma WorkAdvances(s: State, ok: bool, fault: FetchFault, most: nat, slack: nat)
    requires Draining(s, most, slack)
    ensures Advances(s.k.w, s.b, WorkerNext(s, ok, fault).k.w, WorkerNext(s, ok, fault).b, FrameOf(s, most, slack))
  {
    var f := FrameOf(s, most, slack);
    if Moves(s.k.w.pc) { MovingAdvances(s, ok, fault, f); } else { QuietAdvances(s, ok, f); }
  }

  lemma WorkSafe(s: State, ok: bool, fault: FetchFault)
    requires Safe(s) && s.up
    ensures Safe(WorkerNext(s, ok, fault))
  {
    SafeStep(s, Work(ok, fault));
    assert Next(s, Work(ok, fault)) == WorkerNext(s, ok, fault);
  }

  lemma WorkDrains(s: State, ok: bool, fault: FetchFault, most: nat, slack: nat)
    requires Draining(s, most, slack) && InDrain(WorkerNext(s, ok, fault).k.w)
    ensures Draining(WorkerNext(s, ok, fault), most, slack)
  {
    WorkSafe(s, ok, fault);
    WorkSpares(s, ok, fault);
    WorkHeld(s, ok, fault);
    StillStorable(s, WorkerNext(s, ok, fault));
    WorkWithin(s, ok, fault, most, slack);
    WorkAdvances(s, ok, fault, most, slack);
  }

  // ---- the other threads ----

  lemma OthersKeep(s: State, step: Step)
    requires s.up && Allowed(step) && !step.Work? && !step.Producing? && s.cl.c.pc.ConsentIdle?
    ensures var s' := Next(s, step);
            && s'.b == s.b && s'.k.w == s.k.w && s'.k.outstanding == s.k.outstanding
            && s'.run == s.run && s'.cfg == s.cfg && s'.up
  {}

  lemma OthersKeepCallers(s: State, step: Step)
    requires s.up && Allowed(step) && !step.Work? && !step.Producing? && s.cl.c.pc.ConsentIdle?
    ensures var s' := Next(s, step);
            && s'.cl.consent == s.cl.consent && s'.cl.gen == s.cl.gen && s'.cl.c == s.cl.c
            && s'.cl.p.pend == s.cl.p.pend
  {}

  lemma OthersStorable(s: State, step: Step)
    requires s.up && Allowed(step) && !step.Work? && !step.Producing? && s.cl.c.pc.ConsentIdle?
    requires AllStorable(Held(s.b), s.cl.p)
    ensures AllStorable(Held(s.b), Next(s, step).cl.p)
  {}

  lemma ProducerStorable(s: State)
    requires AllStorable(Held(s.b), s.cl.p)
    ensures AllStorable(Held(ProducerNext(s).b), ProducerNext(s).cl.p)
  {
    if s.cl.p.pc.Push? { HeldPushed(s.b, s.cl.p.pend); }
  }

  lemma ProducerWithin(s: State, most: nat, slack: nat)
    requires Tallied(s.k.w, s.cl.c) && Pending(s.cl, |s.log.admitted|) && Within(s, most, slack)
    ensures Within(ProducerNext(s), most, slack)
  {
    BalancedProducer(s);
    ProducerCounts(s);
    ProducerSpares(s);
  }

  /** An event admitted now is above the barrier, of the current generation, and queued. */
  lemma PushKeepsLoop(w: Worker, b: Buffers, pend: seq<Event>, f: Frame)
    requires LoopOk(w, b, f.gen) && Clear(pend, w.pass.barrier) && forall e :: e in pend ==> e.gen == f.gen
    ensures var b' := b.(queue := b.queue + pend);
            LoopOk(w, b', f.gen) && MeasureOf(w, b', f) == MeasureOf(w, b, f) && Way(w, b') == Way(w, b)
  {
    HeldPushed(b, pend);
    CountJoin(Held(b), pend, w.pass.barrier);
    CountUpToZero(pend, w.pass.barrier);
    OutdatedJoin(Held(b), pend, f.gen);
    NoneOutdated(pend, f.gen);
  }

  lemma {:induction false} NoneOutdated(es: seq<Event>, gen: nat)
    requires forall e :: e in es ==> e.gen == gen
    ensures Outdated(es, gen) == 0
  {
    if es != [] {
      assert es[0] in es;
      NoneOutdated(es[1..], gen);
    }
  }

  lemma PendAbovePass(s: State)
    requires Order(s) && FlushInv(s) && s.up && InDrain(s.k.w)
    ensures Clear(s.cl.p.pend, s.k.w.pass.barrier) && forall e :: e in s.cl.p.pend ==> e.gen == s.cl.gen
  {
    PendAbove(s);
  }

  /** The two measures after a step are what they were before it. */
  predicate SameSize(s: State, s': State, most: nat, slack: nat) {
    && MeasureOf(s'.k.w, s'.b, FrameOf(s', most, slack)) == MeasureOf(s.k.w, s.b, FrameOf(s, most, slack))
    && Way(s'.k.w, s'.b) == Way(s.k.w, s.b)
  }

  lemma ProducerLoops(s: State, most: nat, slack: nat)
    requires Order(s) && FlushInv(s) && s.up && LoopOk(s.k.w, s.b, s.cl.gen)
    ensures LoopOk(ProducerNext(s).k.w, ProducerNext(s).b, ProducerNext(s).cl.gen)
    ensures SameSize(s, ProducerNext(s), most, slack)
  {
    ProducerSpares(s);
    ProducerPushes(s);
    PendAbovePass(s);
    PushKeepsLoop(s.k.w, s.b, s.cl.p.pend, FrameOf(s, most, slack));
  }

  lemma ProducerSafe(s: State)
    requires Safe(s) && s.up
    ensures Safe(ProducerNext(s))
  {
    SafeStep(s, Producing);
    assert Next(s, Producing) == ProducerNext(s);
  }

  lemma ProducerDrains(s: State, most: nat, slack: nat)
    requires Draining(s, most, slack)
    ensures Draining(ProducerNext(s), most, slack) && SameSize(s, ProducerNext(s), most, slack)
  {
    ProducerSafe(s);
    ProducerSpares(s);
    ProducerStorable(s);
    ProducerWithin(s, most, slack);
    ProducerLoops(s, most, slack);
  }

  lemma OtherDrains(s: State, step: Step, most: nat, slack: nat)
    requires Draining(s, most, slack) && Allowed(step) && !step.Work?
    ensures Draining(Next(s, step), most, slack) && SameSize(s, Next(s, step), most, slack)
  {
    if step.Producing? {
      ProducerDrains(s, most, slack);
    } else {
      SafeStep(s, step);
      OthersKeep(s, step);
      OthersKeepCallers(s, step);
      OthersStorable(s, step);
    }
  }
}
