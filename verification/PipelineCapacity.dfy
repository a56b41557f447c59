/**
  * Counting: the capacity counter never exceeds what is held, whatever revocations race with
  * the worker, and every step moves it with what is held.
  */
module PipelineCapacity {
  import opened Events
  import opened StoreSpec
  import opened Pipeline
  import opened PipelineFlow
  import opened PipelineOrder
  import opened PipelineConsent
  import opened PipelineLedger

  /** The events that occupy capacity: held ones, the one being pushed, and those that have
      left but are not released yet. */
  function Load(b: Buffers, pend: seq<Event>, settle: nat, dropped: nat): nat {
    |Held(b)| + |pend| + settle + dropped
  }

  function LoadOf(s: State): nat {
    Load(s.b, s.cl.p.pend, s.k.w.settle, s.cl.c.dropped)
  }

  /** Everything this run took in, as far as it can still be traced. */
  function Traced(s: State): nat {
    |Held(s.b)| + s.k.w.settle + s.k.stats.delivered + s.k.stats.droppedInvalid
  }

  /** The counter moved with the load; a release stops at zero. */
  predicate Balanced(out: nat, load: nat, out': nat, load': nat) {
    || (load' >= load && out' - out == load' - load)
    || (load' <= load && out' == Release(out, load - load'))
  }

  predicate Tallied(w: Worker, c: ConsentCaller) {
    && (w.settle > 0 ==> w.pc.SettleQuarantine? || w.pc.SettleAck?)
    && (c.dropped > 0 ==> c.pc.ReleaseQueue? || c.pc.ReleaseRetry?)
  }

  /** A purge has been committed and its reset of the counter is still to come. */
  predicate ResetPending(s: State) {
    s.k.w.pc.PurgeReset? || s.cl.c.pc.ResetCount?
  }

  predicate CapacityOk(s: State) {
    s.up && !s.run.died ==>
      Tallied(s.k.w, s.cl.c) && (s.k.outstanding <= LoadOf(s) || ResetPending(s))
  }

  // ---- worker steps ----

  predicate Balances(s: State, s': State) {
    && Tallied(s'.k.w, s'.cl.c)
    && Balanced(s.k.outstanding, LoadOf(s), s'.k.outstanding, LoadOf(s'))
  }

  /** A step that counts nothing new and releases exactly what is gone. */
  predicate Releases(s: State, s': State) {
    && Tallied(s'.k.w, s'.cl.c)
    && LoadOf(s') <= LoadOf(s)
    && s'.k.outstanding == Release(s.k.outstanding, LoadOf(s) - LoadOf(s'))
  }

  /** No event is lost track of. */
  predicate Traces(s: State, s': State) {
    Traced(s') == Traced(s) && s'.k.stats.accepted == s.k.stats.accepted
  }

  lemma ReleasedQuiet(s: State, ok: bool)
    requires Tallied(s.k.w, s.cl.c) && !Moves(s.k.w.pc) && !s.k.w.pc.PurgeReset?
    ensures Releases(s, s.(k := QuietNext(s, ok))) && Traces(s, s.(k := QuietNext(s, ok)))
  {}

  lemma ReleasedDrain(s: State)
    requires Order(s) && Tallied(s.k.w, s.cl.c) && s.k.w.pc.Pop?
    ensures Releases(s, Drain(s)) && Traces(s, Drain(s))
  {
    assert Held(Drain(s).b) == Held(s.b);
  }

  lemma ReleasedTakeRetry(s: State)
    requires Order(s) && Tallied(s.k.w, s.cl.c) && s.k.w.pc.TakeRetry?
    ensures Releases(s, JoinRetry(s)) && Traces(s, JoinRetry(s))
    ensures Releases(s, ToDeliver(s)) && Traces(s, ToDeliver(s))
  {
    assert Held(JoinRetry(s).b) == Held(s.b);
  }

  lemma ReleasedDrops(s: State)
    requires Tallied(s.k.w, s.cl.c)
    ensures s.k.w.pc.DiscardBatch? ==> Releases(s, DropIncoming(s)) && (s.b.hand == [] ==> Traces(s, DropIncoming(s)))
    ensures s.k.w.pc.DiscardKeep? ==> Releases(s, DropKept(s)) && (s.b.keep == [] ==> Traces(s, DropKept(s)))
  {}

  lemma ReleasedHead(s: State)
    requires Tallied(s.k.w, s.cl.c) && s.k.w.pc.Sift? && s.b.hand != []
    ensures Releases(s, SiftStale(s))
    ensures Releases(s, SiftInvalid(s)) && Traces(s, SiftInvalid(s))
    ensures Releases(s, SiftKeep(s)) && Traces(s, SiftKeep(s))
  {}

  lemma ReleasedSift(s: State, ok: bool, fault: FetchFault)
    requires Tallied(s.k.w, s.cl.c) && s.k.w.pc.Sift?
    ensures Releases(s, MovingNext(s, ok, fault))
    ensures (s.b.hand == [] || s.b.hand[0].gen == s.k.w.gen) ==> Traces(s, MovingNext(s, ok, fault))
  {
    if s.b.hand != [] { ReleasedHead(s); }
  }

  lemma ReleasedInsert(s: State, ok: bool, fault: FetchFault)
    requires Order(s) && Tallied(s.k.w, s.cl.c) && s.k.w.pc.Insert?
    ensures Releases(s, MovingNext(s, ok, fault)) && Traces(s, MovingNext(s, ok, fault))
  {
    OrderStored(s);
  }

  lemma ReleasedHold(s: State)
    requires Order(s) && Tallied(s.k.w, s.cl.c) && s.k.w.pc.Hold?
    ensures Releases(s, HoldForRetry(s)) && Traces(s, HoldForRetry(s))
  {
    assert Held(HoldForRetry(s).b) == Held(s.b);
  }

  lemma ReleasedFetched(s: State, f: FetchResult, n: nat)
    requires Tallied(s.k.w, s.cl.c) && s.k.w.pc.Fetch?
    ensures Releases(s, Fetched(s, f, n)) && Traces(s, Fetched(s, f, n))
  {}

  lemma ReleasedQuarantined(s: State, f: FetchResult)
    requires Tallied(s.k.w, s.cl.c) && s.k.w.pc.Fetch? && f.quarantined + |f.rows| == |s.b.rows|
    ensures Releases(s, FetchedAndQuarantined(s, f)) && Traces(s, FetchedAndQuarantined(s, f))
  {}

  lemma ReleasedFetch(s: State, ok: bool, fault: FetchFault)
    requires Order(s) && Tallied(s.k.w, s.cl.c) && s.k.w.pc.Fetch?
    ensures Releases(s, MovingNext(s, ok, fault)) && Traces(s, MovingNext(s, ok, fault))
  {
    LineParts(s.b);
    FetchOldest(s.b.rows, s.cfg.batch, fault);
    var f, n := FetchPending(s.b.rows, s.cfg.batch, fault), Scanned(s.b.rows, s.cfg.batch, fault);
    var s' := MovingNext(s, ok, fault);
    if f.quarantined > 0 {
      ReleasedQuarantined(s, f);
      assert s' == FetchedAndQuarantined(s, f);
    } else {
      ReleasedFetched(s, f, n);
      assert s' == Fetched(s, f, n);
    }
  }

  lemma ReleasedAcknowledged(s: State)
    requires Tallied(s.k.w, s.cl.c) && s.k.w.pc.Ack?
    requires |Without(s.b.rows, IdSet(s.k.w.batch))| + |s.k.w.batch| == |s.b.rows|
    ensures Releases(s, Acknowledged(s)) && Traces(s, Acknowledged(s))
  {}

  lemma ReleasedMisacknowledged(s: State)
    requires Tallied(s.k.w, s.cl.c) && s.k.w.pc.Ack?
    requires Without(s.b.rows, IdSet(s.k.w.batch)) == s.b.rows
    ensures Releases(s, Misacknowledged(s)) && Traces(s, Misacknowledged(s))
  {}

  /** An acknowledgment takes as many rows as the batch has events, or none. */
  lemma AckSizes(s: State)
    requires Order(s) && s.k.w.pc.Ack?
    ensures var rows' := Without(s.b.rows, IdSet(s.k.w.batch));
            if |Removed(s.b.rows, s.k.w.batch)| == |s.k.w.batch| then |rows'| + |s.k.w.batch| == |s.b.rows|
            else rows' == s.b.rows
  {
    AckAllOrNone(s);
    if s.b.rows != [] { UsableSplit(s.b.rows[..s.k.w.scanned]); }
  }

  lemma ReleasedAck(s: State, ok: bool, fault: FetchFault)
    requires Order(s) && Tallied(s.k.w, s.cl.c) && s.k.w.pc.Ack?
    ensures Releases(s, MovingNext(s, ok, fault)) && Traces(s, MovingNext(s, ok, fault))
  {
    AckSizes(s);
    if !ok {
    } else if |Removed(s.b.rows, s.k.w.batch)| == |s.k.w.batch| {
      ReleasedAcknowledged(s);
    } else {
      ReleasedMisacknowledged(s);
    }
  }

  /** The worker is not about to discard an event for want of consent. */
  predicate NothingStale(w: Worker, b: Buffers) {
    || (b.hand == [] && b.keep == [])
    || (!w.pc.DiscardBatch? && !w.pc.DiscardKeep?
        && (w.pc.Sift? && b.hand != [] ==> b.hand[0].gen == w.gen))
  }

  lemma ReleasedMoving(s: State, ok: bool, fault: FetchFault)
    requires Order(s) && Tallied(s.k.w, s.cl.c) && Moves(s.k.w.pc) && !s.k.w.pc.PurgeStore?
    ensures Releases(s, MovingNext(s, ok, fault))
    ensures NothingStale(s.k.w, s.b) ==> Traces(s, MovingNext(s, ok, fault))
  {
    match s.k.w.pc
    case Pop => ReleasedDrain(s);
    case TakeRetry => ReleasedTakeRetry(s);
    case DiscardBatch => ReleasedDrops(s);
    case Sift => ReleasedSift(s, ok, fault);
    case Insert => ReleasedInsert(s, ok, fault);
    case DiscardKeep => ReleasedDrops(s);
    case Hold => ReleasedHold(s);
    case Fetch => ReleasedFetch(s, ok, fault);
    case Writing =>
    case Ack => ReleasedAck(s, ok, fault);
    case PurgeStore =>
  }

  /** A balanced step of any thread keeps the bound. */
  lemma CapacityBalanced(s: State, s': State)
    requires CapacityOk(s) && s.up && !s.run.died && Balances(s, s')
    requires ResetPending(s) ==> ResetPending(s')
    ensures CapacityOk(s')
  {}

  lemma CapacityWorker(s: State, ok: bool, fault: FetchFault)
    requires Order(s) && CapacityOk(s) && s.up && !s.run.died
    ensures CapacityOk(WorkerNext(s, ok, fault))
  {
    if s.k.w.pc.PurgeStore? {
      CapacityPurge(s, ok, fault);
    } else if s.k.w.pc.PurgeReset? {
    } else if Moves(s.k.w.pc) {
      ReleasedMoving(s, ok, fault);
      MovingCallers(s, ok, fault);
      CapacityBalanced(s, MovingNext(s, ok, fault));
    } else {
      ReleasedQuiet(s, ok);
      CapacityBalanced(s, s.(k := QuietNext(s, ok)));
    }
  }

  lemma CapacityPurge(s: State, ok: bool, fault: FetchFault)
    requires CapacityOk(s) && s.up && !s.run.died && s.k.w.pc.PurgeStore?
    ensures CapacityOk(MovingNext(s, ok, fault))
  {}

  // ---- the callers ----

  /** Nothing that is counted has moved. */
  lemma CapacitySame(s: State, s': State)
    requires CapacityOk(s) && s.up && !s.run.died
    requires s'.b == s.b && s'.k.outstanding == s.k.outstanding && s'.k.w == s.k.w
    requires s'.cl.p.pend == s.cl.p.pend && s'.cl.c.dropped == 0
    requires !s.cl.c.pc.ReleaseQueue? && !s.cl.c.pc.ReleaseRetry? && !s.cl.c.pc.ResetCount?
    ensures CapacityOk(s')
  {}

  lemma CapacityQueueGone(s: State)
    requires CapacityOk(s) && s.up && !s.run.died
    ensures s.cl.c.pc.ClearQueue? ==> CapacityOk(QueueCleared(s))
    ensures s.cl.c.pc.ReleaseQueue? ==> CapacityOk(QueueReleased(s))
  {}

  lemma CapacityRetryGone(s: State)
    requires CapacityOk(s) && s.up && !s.run.died
    ensures s.cl.c.pc.DiscardRetry? ==> CapacityOk(RetryDiscarded(s))
    ensures s.cl.c.pc.ReleaseRetry? ==> CapacityOk(RetryReleased(s))
  {}

  lemma CapacityConsent(s: State, ok: bool)
    requires CapacityOk(s) && s.up && !s.run.died
    ensures CapacityOk(ConsentNext(s, ok))
  {
    match s.cl.c.pc
    case ConsentIdle =>
    case Bump => CapacitySame(s, Bumped(s));
    case ClearQueue => CapacityQueueGone(s);
    case ReleaseQueue => CapacityQueueGone(s);
    case DiscardRetry => CapacityRetryGone(s);
    case ReleaseRetry => CapacityRetryGone(s);
    case Mark => CapacitySame(s, ConsentNext(s, ok));
    case PurgeRows => if !ok { CapacitySame(s, CallerFailed(s)); }
    case ResetCount =>
    case SetGranted => CapacitySame(s, ConsentNext(s, ok));
  }

  /** The counter, the load and the tally of accepted events move together. */
  predicate Admits(s: State, s': State) {
    Balances(s, s') && Traced(s') + s.k.stats.accepted == Traced(s) + s'.k.stats.accepted
  }

  lemma BalancedPushed(s: State, s': State)
    requires Tallied(s.k.w, s.cl.c) && |s.cl.p.pend| == 1
    requires s'.b == s.b.(queue := s.b.queue + s.cl.p.pend) && s'.cl.p.pend == [] && s'.cl.c == s.cl.c
    requires s'.k == s.k.(stats := s.k.stats.(accepted := s.k.stats.accepted + 1))
    ensures Admits(s, s')
  {
    HeldPushed(s.b, s.cl.p.pend);
  }

  lemma BalancedCounted(s: State)
    requires Tallied(s.k.w, s.cl.c) && s.cl.session.active && s.cl.p.pend == []
    ensures Admits(s, Counted(s))
  {}

  lemma BalancedUncounted(s: State)
    requires Tallied(s.k.w, s.cl.c) && |s.cl.p.pend| == 1
    ensures Admits(s, Uncounted(s))
  {}

  lemma BalancedNoEvent(s: State, s': State)
    requires Tallied(s.k.w, s.cl.c) && s'.b == s.b && s'.k == s.k && s'.cl.c == s.cl.c
    requires s'.cl.p.pend == s.cl.p.pend
    ensures Admits(s, s')
  {}

  lemma BalancedProducer(s: State)
    requires Tallied(s.k.w, s.cl.c) && Pending(s.cl, |s.log.admitted|)
    ensures Admits(s, ProducerNext(s))
  {
    if s.cl.p.pc.Push? {
      if |s.b.queue| < s.cfg.queueCap { BalancedPushed(s, ProducerNext(s)); }
      else { BalancedUncounted(s); }
    } else if s.cl.p.pc.Checks? && Admissible(s) {
      BalancedCounted(s);
    } else {
      BalancedNoEvent(s, ProducerNext(s));
    }
  }

  lemma CapacityUp(s: State, step: Step)
    requires Order(s) && CapacityOk(s) && s.up && !s.run.died
    ensures CapacityOk(NextUp(s, step))
  {
    match step
    case Work(ok, fault) => CapacityWorker(s, ok, fault);
    case Consenting(ok) => CapacityConsent(s, ok);
    case Producing =>
      BalancedProducer(s);
      ProducerSpares(s);
      CapacityBalanced(s, ProducerNext(s));
    case _ =>
  }

  lemma CapacityOpened(s: State, step: Step)
    requires step.Open? && !s.up && NoMemory(s)
    ensures CapacityOk(Next(s, step))
  {}

  lemma DiedStays(s: State, step: Step)
    requires s.up && s.run.died && Next(s, step).up
    ensures Next(s, step).run.died
  {}

  lemma CapacityStep(s: State, step: Step)
    requires Order(s) && CapacityOk(s) && NoMemory(s)
    ensures CapacityOk(Next(s, step))
  {
    if s.up {
      if s.run.died { if Next(s, step).up { DiedStays(s, step); } }
      else { CapacityUp(s, step); }
    } else if step.Open? {
      CapacityOpened(s, step);
    }
  }

  lemma {:induction false} CapacityAlways(cfg: Config, steps: seq<Step>)
    requires ValidConfig(cfg)
    ensures CapacityOk(Exec(Init(cfg), steps))
  {
    if steps != [] {
      var front := steps[..|steps| - 1];
      CapacityAlways(cfg, front);
      OrderAlways(cfg, front);
      AccountsAlways(cfg, front);
      CapacityStep(Exec(Init(cfg), front), steps[|steps| - 1]);
    }
  }

  /** Capacity is never leaked: unless a purge is between its commit and its reset, or the
      worker has died, the counter is at most the number of events that occupy capacity; and
      between operations it is at most the number of events held. */
  lemma CapacityIsNeverLeaked(s: State)
    requires Reachable(s) && s.up && !s.run.died && !ResetPending(s)
    ensures s.k.outstanding <= LoadOf(s)
    ensures (s.cl.p.pc.ProducerIdle? && !s.cl.c.pc.ReleaseQueue? && !s.cl.c.pc.ReleaseRetry?
             && !s.k.w.pc.SettleQuarantine? && !s.k.w.pc.SettleAck?)
            ==> s.k.outstanding <= |Held(s.b)|
  {
    var cfg, steps := ReachedBy(s);
    CapacityAlways(cfg, steps);
    OrderAlways(cfg, steps);
  }
}
