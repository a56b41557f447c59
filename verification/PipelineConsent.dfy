/**
  * Consent: which generation the held events belong to, what a revocation still owes, and
  * what may be discarded, in every interleaving of the worker with revocations, re-grants,
  * crashes and restarts.
  */
module PipelineConsent {
  import opened Events
  import opened StoreSpec
  import opened Pipeline
  import opened PipelineFlow
  import opened PipelineOrder

  /** The generation in force, counting a revocation that is about to bump it. */
  function Era(cl: Callers): nat {
    cl.gen + if cl.c.pc.Bump? then 1 else 0
  }

  /** Exactly the events admitted since the latest revocation carry the current generation. */
  predicate Generations(up: bool, held: seq<Event>, cl: Callers, boundary: nat) {
    up ==> forall e :: e in held ==>
      if e.id >= boundary then e.gen == Era(cl) else e.gen < Era(cl)
  }

  /** A purge is owed: the caller is on its way to it, or has not completed it. */
  predicate Owed(cl: Callers) {
    cl.purgeRequired || cl.c.pc.Bump? || cl.c.pc.ClearQueue? || cl.c.pc.ReleaseQueue?
  }

  predicate CallerOk(up: bool, cl: Callers, boundary: nat, admitted: nat, markBelow: nat, purgedBelow: nat) {
    up ==>
      && (cl.c.pc.PurgeRows? ==> markBelow == admitted)
      && (cl.c.pc.ResetCount? ==> purgedBelow == admitted)
      && (cl.consent != Granted ==> boundary == admitted && cl.p.pend == [])
      && (cl.consent == Granted ==> !cl.purgeRequired && (cl.c.pc.ConsentIdle? || cl.c.pc.SetGranted?))
      && (cl.c.pc.DiscardRetry? || cl.c.pc.ReleaseRetry? || cl.c.pc.Mark? || cl.c.pc.PurgeRows?
          ==> cl.purgeRequired)
      && (cl.c.pc.ResetCount? || cl.c.pc.SetGranted? ==> !cl.purgeRequired)
  }

  predicate RowsOk(up: bool, rows: seq<Event>, cl: Callers, marker: bool, run: Run, log: Log) {
    && (up && cl.consent == Granted ==> forall e :: e in rows ==> e.id >= run.boundary)
    && (up && cl.consent != Granted && rows != [] ==> Owed(cl))
    && (up && marker ==> cl.purgeRequired)
    && (marker ==> forall e :: e in rows ==> e.id < log.revokedBelow)
    && (!marker ==> forall e :: e in rows ==> e.id >= log.markBelow)
    && (forall e :: e in rows ==> e.id >= log.purgedBelow)
    && (up ==> forall e :: e in rows ==> e.id >= run.condemned)
  }

  predicate BoundsOk(run: Run, log: Log) {
    && log.purgedBelow <= log.markBelow <= |log.admitted|
    && run.condemned <= log.markBelow
    && run.boundary <= log.revokedBelow <= |log.admitted|
  }

  function Memory(b: Buffers): seq<Event> {
    b.retry + (b.keep + (b.hand + b.queue))
  }

  /** Events in memory from before the latest marker are of an older generation. */
  predicate MemoryOk(up: bool, b: Buffers, cl: Callers, markBelow: nat) {
    up ==> forall e :: e in Memory(b) && e.id < markBelow ==> e.gen < cl.gen
  }

  predicate AllBelow(es: seq<Event>, id: nat) {
    forall e :: e in es ==> e.id < id
  }

  predicate LatchedIncoming(pc: WorkerPc) {
    pc.ReadConsent? || pc.DiscardBatch? || HoldsKeep(pc)
  }

  predicate LatchedDelivery(pc: WorkerPc) {
    pc.PreWriteConsent? || pc.StartWrite? || pc.Writing? || pc.RecheckConsent? || pc.RecheckGen?
  }

  /** What the worker's last reading of consent and generation still guarantees. */
  predicate WorkerOk(pc: WorkerPc, gen: nat, b: Buffers, cl: Callers, marker: bool, boundary: nat, markBelow: nat) {
    && (LatchedIncoming(pc) || LatchedDelivery(pc) ==> gen <= cl.gen)
    && (LatchedIncoming(pc) ==> forall e :: e in b.hand ==> e.gen <= gen)
    && (HoldsKeep(pc) ==> forall e :: e in b.keep ==> e.gen == gen)
    && (LatchedDelivery(pc) ==> forall e :: e in b.rows ==> e.gen <= gen)
    && (pc.BoundaryGen? || pc.Insert? ==> !marker && (cl.consent == Granted || Owed(cl)))
    && (pc.Insert? ==> (cl.consent == Granted ==> gen == cl.gen)
                       && forall e :: e in b.keep ==> e.id >= markBelow)
    && (pc.DiscardBatch? ==> AllBelow(b.hand, boundary) && AllBelow(b.rows, boundary))
    && (pc.DiscardKeep? ==> AllBelow(b.keep, boundary))
    && (pc.PurgeStore? ==> AllBelow(b.rows, boundary))
  }

  predicate DropsOk(fate: Fate, revokedBelow: nat) {
    forall x :: x in fate.consentDropped ==> x < revokedBelow
  }

  predicate ConsentInv(s: State) {
    && Generations(s.up, Held(s.b), s.cl, s.run.boundary)
    && CallerOk(s.up, s.cl, s.run.boundary, |s.log.admitted|, s.log.markBelow, s.log.purgedBelow)
    && RowsOk(s.up, s.b.rows, s.cl, s.marker, s.run, s.log)
    && BoundsOk(s.run, s.log)
    && MemoryOk(s.up, s.b, s.cl, s.log.markBelow)
    && WorkerOk(s.k.w.pc, s.k.w.gen, s.b, s.cl, s.marker, s.run.boundary, s.log.markBelow)
    && DropsOk(s.fate, s.log.revokedBelow)
  }

  // ---- consequences ----

  lemma HeldAll(b: Buffers)
    ensures forall e :: e in b.rows || e in b.retry || e in b.keep || e in b.hand || e in b.queue
                    ==> e in Held(b)
  {}

  /** No held event is of a later generation than the one in force. */
  lemma GensAtMost(s: State)
    requires Order(s) && ConsentInv(s) && s.up
    ensures forall e :: e in Held(s.b) ==> e.gen <= s.cl.gen
  {}

  /** Without consent, every held event was admitted before the latest revocation. */
  lemma AllCondemned(s: State)
    requires Order(s) && ConsentInv(s) && s.up && s.cl.consent != Granted
    ensures forall e :: e in Held(s.b) ==> e.id < s.run.boundary
  {}

  /** An event of an older generation was admitted before the latest revocation. */
  lemma OldIsCondemned(s: State, e: Event)
    requires Order(s) && ConsentInv(s) && s.up && e in Held(s.b) && e.gen < s.cl.gen
    ensures e.id < s.run.boundary
  {}

  // ---- worker steps that move no event ----

  predicate WorkerOkAt(s: State, w: Worker) {
    WorkerOk(w.pc, w.gen, s.b, s.cl, s.marker, s.run.boundary, s.log.markBelow)
  }

  lemma ConsentReadIncoming(s: State, ok: bool)
    requires Order(s) && ConsentInv(s) && s.up
    requires s.k.w.pc.ReadConsent? || s.k.w.pc.BoundaryConsent?
    ensures WorkerOkAt(s, QuietNext(s, ok).w)
  {
    HeldAll(s.b);
    if s.cl.consent != Granted { AllCondemned(s); }
  }

  lemma ConsentReadDelivery(s: State, ok: bool)
    requires Order(s) && ConsentInv(s) && s.up
    requires s.k.w.pc.DeliverConsent? || s.k.w.pc.PreWriteConsent? || s.k.w.pc.RecheckConsent?
    ensures WorkerOkAt(s, QuietNext(s, ok).w)
  {
    HeldAll(s.b);
    if s.cl.consent != Granted { AllCondemned(s); }
  }

  lemma ConsentLatches(s: State, ok: bool)
    requires Order(s) && ConsentInv(s) && s.up
    requires s.k.w.pc.LatchGen? || s.k.w.pc.LatchDeliveryGen?
    ensures WorkerOkAt(s, QuietNext(s, ok).w)
  {
    HeldAll(s.b);
    GensAtMost(s);
  }

  lemma ConsentGenReads(s: State, ok: bool)
    requires Order(s) && ConsentInv(s) && s.up
    requires s.k.w.pc.BoundaryGen? || s.k.w.pc.RecheckGen?
    ensures WorkerOkAt(s, QuietNext(s, ok).w)
  {
    HeldAll(s.b);
    forall e | e in Held(s.b) && e.gen < s.cl.gen ensures e.id < s.run.boundary { OldIsCondemned(s, e); }
  }

  lemma ConsentOtherQuiet(s: State, ok: bool)
    requires Order(s) && ConsentInv(s) && !Moves(s.k.w.pc)
    requires !s.k.w.pc.ReadConsent? && !s.k.w.pc.BoundaryConsent? && !s.k.w.pc.DeliverConsent?
             && !s.k.w.pc.PreWriteConsent? && !s.k.w.pc.RecheckConsent?
    requires !s.k.w.pc.LatchGen? && !s.k.w.pc.LatchDeliveryGen?
    requires !s.k.w.pc.BoundaryGen? && !s.k.w.pc.RecheckGen?
    ensures WorkerOkAt(s, QuietNext(s, ok).w)
  {
    QuietFlow(s, ok);
    QuietGen(s, ok);
  }

  lemma QuietGen(s: State, ok: bool)
    requires !Moves(s.k.w.pc) && !s.k.w.pc.LatchGen? && !s.k.w.pc.LatchDeliveryGen?
    ensures QuietNext(s, ok).w.gen == s.k.w.gen
  {}

  lemma ConsentQuiet(s: State, ok: bool)
    requires Order(s) && ConsentInv(s) && s.up && !Moves(s.k.w.pc)
    ensures ConsentInv(s.(k := QuietNext(s, ok)))
  {
    var pc := s.k.w.pc;
    if pc.ReadConsent? || pc.BoundaryConsent? {
      ConsentReadIncoming(s, ok);
    } else if pc.DeliverConsent? || pc.PreWriteConsent? || pc.RecheckConsent? {
      ConsentReadDelivery(s, ok);
    } else if pc.LatchGen? || pc.LatchDeliveryGen? {
      ConsentLatches(s, ok);
    } else if pc.BoundaryGen? || pc.RecheckGen? {
      ConsentGenReads(s, ok);
    } else {
      ConsentOtherQuiet(s, ok);
    }
  }

  // ---- worker steps that move events ----

  /** A step that leaves rows and callers alone and takes no event from anywhere else. */
  lemma ConsentMoves(s: State, s': State)
    requires Order(s) && ConsentInv(s)
    requires s'.up == s.up && s'.marker == s.marker && s'.cl == s.cl && s'.run == s.run && s'.log == s.log
    requires s'.b.rows == s.b.rows
    requires forall e :: e in Memory(s'.b) ==> e in Memory(s.b)
    requires WorkerOkAt(s', s'.k.w) && DropsOk(s'.fate, s.log.revokedBelow)
    ensures ConsentInv(s')
  {
    forall e | e in Held(s'.b) ensures e in Held(s.b) {
      assert e in s'.b.rows || e in Memory(s'.b);
    }
  }

  lemma ConsentDrain(s: State)
    requires Order(s) && ConsentInv(s) && s.k.w.pc.Pop?
    ensures ConsentInv(Drain(s))
  {
    ConsentMoves(s, Drain(s));
  }

  lemma ConsentJoinRetry(s: State)
    requires Order(s) && ConsentInv(s) && s.k.w.pc.TakeRetry?
    ensures ConsentInv(JoinRetry(s))
  {
    ConsentMoves(s, JoinRetry(s));
  }

  lemma ConsentToDeliver(s: State)
    requires Order(s) && ConsentInv(s)
    ensures ConsentInv(ToDeliver(s))
  {
    ConsentMoves(s, ToDeliver(s));
  }

  lemma ConsentDropIncoming(s: State)
    requires Order(s) && ConsentInv(s) && s.k.w.pc.DiscardBatch?
    ensures ConsentInv(DropIncoming(s))
  {
    ConsentMoves(s, DropIncoming(s));
  }

  lemma ConsentSiftStale(s: State)
    requires Order(s) && ConsentInv(s) && s.up && s.k.w.pc.Sift? && s.b.hand != []
    requires s.b.hand[0].gen != s.k.w.gen
    ensures ConsentInv(SiftStale(s))
  {
    HeldAll(s.b);
    OldIsCondemned(s, s.b.hand[0]);
    ConsentMoves(s, SiftStale(s));
  }

  lemma ConsentSiftInvalid(s: State)
    requires Order(s) && ConsentInv(s) && s.k.w.pc.Sift? && s.b.hand != []
    ensures ConsentInv(SiftInvalid(s))
  {
    ConsentMoves(s, SiftInvalid(s));
  }

  lemma ConsentSiftKeep(s: State)
    requires Order(s) && ConsentInv(s) && s.k.w.pc.Sift? && s.b.hand != []
    requires s.b.hand[0].gen == s.k.w.gen
    ensures ConsentInv(SiftKeep(s))
  {
    ConsentMoves(s, SiftKeep(s));
  }

  lemma ConsentToBoundary(s: State)
    requires Order(s) && ConsentInv(s) && s.k.w.pc.Sift?
    ensures ConsentInv(s.(k := At(s, BoundaryConsent)))
  {
    ConsentMoves(s, s.(k := At(s, BoundaryConsent)));
  }

  lemma ConsentDropKept(s: State)
    requires Order(s) && ConsentInv(s) && s.k.w.pc.DiscardKeep?
    ensures ConsentInv(DropKept(s))
  {
    ConsentMoves(s, DropKept(s));
  }

  lemma ConsentHold(s: State)
    requires Order(s) && ConsentInv(s) && s.k.w.pc.Hold?
    ensures ConsentInv(HoldForRetry(s))
  {
    ConsentMoves(s, HoldForRetry(s));
  }

  lemma RowsStored(s: State)
    requires Order(s) && ConsentInv(s) && s.up && s.k.w.pc.Insert?
    ensures RowsOk(s.up, s.b.rows + s.b.keep, s.cl, s.marker, s.run, s.log)
  {
    HeldAll(s.b);
  }

  /** The insert: the events kept belong to the generation in force, or a purge is ahead. */
  lemma ConsentStored(s: State)
    requires Order(s) && ConsentInv(s) && s.up && s.k.w.pc.Insert?
    ensures ConsentInv(Stored(s))
  {
    OrderStored(s);
    RowsStored(s);
    forall e | e in Memory(Stored(s).b) ensures e in Memory(s.b) {}
  }

  /** A step that removes rows; with the marker, only if it removes them all. */
  lemma ConsentRowsLeave(s: State, s': State)
    requires Order(s) && ConsentInv(s)
    requires s'.up == s.up && s'.cl == s.cl && s'.run == s.run && s'.log == s.log
    requires s'.b == s.b.(rows := s'.b.rows) && forall e :: e in s'.b.rows ==> e in s.b.rows
    requires s'.marker == s.marker || (!s'.marker && s'.b.rows == [])
    requires WorkerOkAt(s', s'.k.w) && DropsOk(s'.fate, s.log.revokedBelow)
    ensures ConsentInv(s')
  {
    if s'.b.rows != [] { assert s'.b.rows[0] in s.b.rows; }
    forall e | e in Held(s'.b) ensures e in Held(s.b) {
      assert e in s'.b.rows || e in Memory(s'.b);
    }
  }

  lemma ConsentQuarantined(s: State, f: FetchResult)
    requires Order(s) && ConsentInv(s) && s.k.w.pc.Fetch?
    requires forall e :: e in f.rows ==> e in s.b.rows
    ensures ConsentInv(FetchedAndQuarantined(s, f))
  {
    ConsentRowsLeave(s, FetchedAndQuarantined(s, f));
  }

  lemma ConsentFetched(s: State, f: FetchResult, n: nat)
    requires Order(s) && ConsentInv(s) && s.k.w.pc.Fetch?
    ensures ConsentInv(Fetched(s, f, n))
  {
    ConsentMoves(s, Fetched(s, f, n));
  }

  lemma ConsentFetch(s: State, ok: bool, fault: FetchFault)
    requires Order(s) && ConsentInv(s) && s.k.w.pc.Fetch?
    ensures ConsentInv(MovingNext(s, ok, fault))
  {
    LineParts(s.b);
    FetchOldest(s.b.rows, s.cfg.batch, fault);
    var f, n := FetchPending(s.b.rows, s.cfg.batch, fault), Scanned(s.b.rows, s.cfg.batch, fault);
    RowsPart(s.b.rows, n);
    if f.quarantined > 0 {
      ConsentQuarantined(s, f);
      assert MovingNext(s, ok, fault) == FetchedAndQuarantined(s, f);
    } else {
      ConsentFetched(s, f, n);
      assert MovingNext(s, ok, fault) == Fetched(s, f, n);
    }
  }

  lemma ConsentWritten(s: State)
    requires Order(s) && ConsentInv(s) && s.k.w.pc.Writing?
    ensures ConsentInv(Written(s))
  {
    ConsentMoves(s, Written(s));
  }

  lemma ConsentFailed(s: State, code: Code)
    requires Order(s) && ConsentInv(s)
    ensures ConsentInv(s.(k := FailedAt(s, code, AfterDeliver)))
  {
    ConsentMoves(s, s.(k := FailedAt(s, code, AfterDeliver)));
  }

  lemma ConsentAcked(s: State)
    requires Order(s) && ConsentInv(s) && s.k.w.pc.Ack?
    ensures ConsentInv(Acknowledged(s))
  {
    WithoutMembers(s.b.rows, IdSet(s.k.w.batch));
    ConsentRowsLeave(s, Acknowledged(s));
  }

  lemma ConsentMisacked(s: State)
    requires Order(s) && ConsentInv(s) && s.k.w.pc.Ack?
    ensures ConsentInv(Misacknowledged(s))
  {
    WithoutMembers(s.b.rows, IdSet(s.k.w.batch));
    ConsentRowsLeave(s, Misacknowledged(s));
  }

  lemma ConsentPurge(s: State, ok: bool, fault: FetchFault)
    requires Order(s) && ConsentInv(s) && s.k.w.pc.PurgeStore?
    ensures ConsentInv(MovingNext(s, ok, fault))
  {
    if ok { ConsentRowsLeave(s, Purged(s)); } else { ConsentRowsLeave(s, PurgeFailed(s)); }
  }

  lemma ConsentInsertFails(s: State)
    requires Order(s) && ConsentInv(s) && s.k.w.pc.Insert?
    ensures ConsentInv(s.(k := FailedAt(s, StorageError, Hold)))
  {
    ConsentMoves(s, s.(k := FailedAt(s, StorageError, Hold)));
  }

  lemma ConsentSift(s: State, ok: bool, fault: FetchFault)
    requires Order(s) && ConsentInv(s) && s.up && s.k.w.pc.Sift?
    ensures ConsentInv(MovingNext(s, ok, fault))
  {
    if s.b.hand != [] {
      if s.b.hand[0].gen != s.k.w.gen { ConsentSiftStale(s); }
      else if !s.b.hand[0].payload.serializes { ConsentSiftInvalid(s); }
      else { ConsentSiftKeep(s); }
    } else if s.b.keep == [] { ConsentToDeliver(s); }
    else { ConsentToBoundary(s); }
  }

  lemma ConsentMoving(s: State, ok: bool, fault: FetchFault)
    requires Order(s) && ConsentInv(s) && s.up && Moves(s.k.w.pc)
    ensures ConsentInv(MovingNext(s, ok, fault))
  {
    match s.k.w.pc
    case Pop => ConsentDrain(s);
    case TakeRetry => if s.b.retry + s.b.hand == [] { ConsentToDeliver(s); } else { ConsentJoinRetry(s); }
    case DiscardBatch => ConsentDropIncoming(s);
    case Sift => ConsentSift(s, ok, fault);
    case Insert => if ok { ConsentStored(s); } else { ConsentInsertFails(s); }
    case DiscardKeep => ConsentDropKept(s);
    case Hold => ConsentHold(s);
    case Fetch => ConsentFetch(s, ok, fault);
    case Writing => if ok { ConsentWritten(s); } else { ConsentFailed(s, SinkError); }
    case Ack =>
      if ok {
        ConsentAcked(s);
        ConsentMisacked(s);
      } else {
        ConsentFailed(s, StorageError);
      }
    case PurgeStore => ConsentPurge(s, ok, fault);
  }

  lemma ConsentWorker(s: State, ok: bool, fault: FetchFault)
    requires Order(s) && ConsentInv(s) && s.up
    ensures ConsentInv(WorkerNext(s, ok, fault))
  {
    if Moves(s.k.w.pc) { ConsentMoving(s, ok, fault); } else { ConsentQuiet(s, ok); }
  }

  lemma ConsentDied(s: State)
    requires Order(s) && ConsentInv(s)
    ensures ConsentInv(WorkerDied(s))
  {
    var s' := WorkerDied(s);
    forall e | e in Memory(s'.b) ensures e in Memory(s.b) {}
    forall e | e in Held(s'.b) ensures e in Held(s.b) { assert e in s'.b.rows || e in Memory(s'.b); }
  }

  // ---- the consent caller ----

  lemma ConsentRevoked(s: State, target: Consent)
    requires Order(s) && ConsentInv(s) && s.up && AdmissionFree(s) && s.cl.c.pc.ConsentIdle? && target != Granted
    ensures ConsentInv(Revoked(s, target))
  {
    HeldAll(s.b);
    GensAtMost(s);
  }

  lemma ConsentBumped(s: State)
    requires Order(s) && ConsentInv(s) && s.up && s.cl.c.pc.Bump?
    ensures ConsentInv(Bumped(s))
  {}

  lemma ConsentQueueCleared(s: State)
    requires Order(s) && ConsentInv(s) && s.up && s.cl.c.pc.ClearQueue?
    ensures ConsentInv(QueueCleared(s))
  {
    HeldAll(s.b);
    AllCondemned(s);
    var s' := QueueCleared(s);
    forall e | e in Memory(s'.b) ensures e in Memory(s.b) {}
    forall e | e in Held(s'.b) ensures e in Held(s.b) { assert e in s'.b.rows || e in Memory(s'.b); }
  }

  lemma ConsentRetryDiscarded(s: State)
    requires Order(s) && ConsentInv(s) && s.up && s.cl.c.pc.DiscardRetry?
    ensures ConsentInv(RetryDiscarded(s))
  {
    HeldAll(s.b);
    AllCondemned(s);
    var s' := RetryDiscarded(s);
    forall e | e in Memory(s'.b) ensures e in Memory(s.b) {}
    forall e | e in Held(s'.b) ensures e in Held(s.b) { assert e in s'.b.rows || e in Memory(s'.b); }
  }

  lemma ConsentRetryReleased(s: State)
    requires Order(s) && ConsentInv(s) && s.up && s.cl.c.pc.ReleaseRetry?
    ensures ConsentInv(RetryReleased(s))
  {}

  lemma ConsentMarked(s: State)
    requires Order(s) && ConsentInv(s) && s.up && s.cl.c.pc.Mark? && !StoreLocked(s)
    ensures ConsentInv(Marked(s))
  {
    HeldAll(s.b);
    AllCondemned(s);
    forall e | e in Memory(s.b) ensures e in Held(s.b) {}
  }

  lemma ConsentCallerPurged(s: State)
    requires Order(s) && ConsentInv(s) && s.up && s.cl.c.pc.PurgeRows? && !StoreLocked(s)
    ensures ConsentInv(CallerPurged(s))
  {
    HeldAll(s.b);
    AllCondemned(s);
    var s' := CallerPurged(s);
    forall e | e in Held(s'.b) ensures e in Held(s.b) { assert e in s'.b.rows || e in Memory(s'.b); }
  }

  lemma ConsentNextGranted(s: State)
    requires Order(s) && ConsentInv(s) && s.up && s.cl.c.pc.SetGranted? && AdmissionFree(s)
    ensures ConsentInv(ConsentGranted(s))
  {}

  /** Bookkeeping of the callers that touches neither events nor consent. */
  lemma ConsentCalling(s: State, s': State)
    requires ConsentInv(s)
    requires s'.up == s.up && s'.b == s.b && s'.marker == s.marker && s'.k.w == s.k.w && s'.fate == s.fate
    requires s'.cl.consent == s.cl.consent && s'.cl.gen == s.cl.gen
    requires s'.cl.c == s.cl.c && s'.cl.purgeRequired == s.cl.purgeRequired
    requires s'.cl.p.pend != [] ==> s.cl.consent == Granted
    requires s'.run.boundary == s.run.boundary && s'.run.condemned == s.run.condemned
    requires s'.log == s.log.(sessions := s'.log.sessions)
    ensures ConsentInv(s')
  {}

  lemma ConsentCallerReleased(s: State)
    requires Order(s) && ConsentInv(s) && s.up && s.cl.c.pc.ReleaseQueue?
    ensures ConsentInv(QueueReleased(s))
  {}

  lemma ConsentCallerReset(s: State)
    requires Order(s) && ConsentInv(s) && s.up && s.cl.c.pc.ResetCount?
    ensures ConsentInv(CallerReset(s))
  {}

  lemma ConsentCallerFailed(s: State)
    requires Order(s) && ConsentInv(s) && s.up && (s.cl.c.pc.Mark? || s.cl.c.pc.PurgeRows?)
    ensures ConsentInv(CallerFailed(s))
  {}

  lemma ConsentGranting(s: State)
    requires Order(s) && ConsentInv(s) && s.up && s.cl.c.pc.ConsentIdle?
    ensures ConsentInv(Granting(s))
  {}

  lemma ConsentCalls(s: State, ok: bool)
    requires Order(s) && ConsentInv(s) && s.up
    ensures ConsentInv(ConsentNext(s, ok))
  {
    match s.cl.c.pc
    case ConsentIdle =>
    case Bump => ConsentBumped(s);
    case ClearQueue => ConsentQueueCleared(s);
    case ReleaseQueue => ConsentCallerReleased(s);
    case DiscardRetry => ConsentRetryDiscarded(s);
    case ReleaseRetry => ConsentRetryReleased(s);
    case Mark => if !StoreLocked(s) { if ok { ConsentMarked(s); } else { ConsentCallerFailed(s); } }
    case PurgeRows => if !StoreLocked(s) { if ok { ConsentCallerPurged(s); } else { ConsentCallerFailed(s); } }
    case ResetCount => ConsentCallerReset(s);
    case SetGranted => if AdmissionFree(s) { ConsentNextGranted(s); }
  }

  // ---- producers ----

  lemma HeldPushed(b: Buffers, pend: seq<Event>)
    ensures Held(b.(queue := b.queue + pend)) == Held(b) + pend
    ensures Memory(b.(queue := b.queue + pend)) == Memory(b) + pend
  {}

  lemma LinePushed(held: seq<Event>, memory: seq<Event>, cl: Callers, e: Event, boundary: nat, markBelow: nat)
    requires Generations(true, held, cl, boundary) && e.gen == Era(cl) && e.id >= boundary
    requires forall x :: x in memory && x.id < markBelow ==> x.gen < cl.gen
    requires e.id >= markBelow
    ensures Generations(true, held + [e], cl, boundary)
    ensures forall x :: x in memory + [e] && x.id < markBelow ==> x.gen < cl.gen
  {}

  lemma ConsentPushed(s: State, s': State)
    requires Order(s) && ConsentInv(s) && s.up && s.cl.p.pc.Push?
    requires s'.up && s'.b == s.b.(queue := s.b.queue + s.cl.p.pend) && s'.marker == s.marker
    requires s'.k.w == s.k.w && s'.fate == s.fate && s'.run == s.run
    requires s'.cl.consent == s.cl.consent && s'.cl.gen == s.cl.gen && s'.cl.c == s.cl.c
    requires s'.cl.purgeRequired == s.cl.purgeRequired && s'.cl.p.pend == []
    requires s'.log == s.log.(sessions := s'.log.sessions, admitted := s.log.admitted + s.cl.p.pend)
    ensures ConsentInv(s')
  {
    HeldPushed(s.b, s.cl.p.pend);
    assert s.cl.p.pend == [s.cl.p.pend[0]];
    LinePushed(Held(s.b), Memory(s.b), s.cl, s.cl.p.pend[0], s.run.boundary, s.log.markBelow);
  }

  lemma ConsentProducer(s: State)
    requires Order(s) && ConsentInv(s) && s.up
    ensures ConsentInv(ProducerNext(s))
  {
    if s.cl.p.pc.Push? && |s.b.queue| < s.cfg.queueCap {
      ConsentPushed(s, ProducerNext(s));
    } else {
      ConsentCalling(s, ProducerNext(s));
    }
  }

  // ---- crash and reopening ----

  lemma ConsentCrashed(s: State)
    requires ConsentInv(s)
    ensures ConsentInv(Crashed(s))
  {}

  lemma ConsentOpenedGranted(s: State)
    requires Order(s) && ConsentInv(s) && !s.marker
    ensures ConsentInv(OpenedGranted(s))
  {
    var s' := OpenedGranted(s);
    forall e | e in s'.b.rows ensures e.gen == 0 && exists x :: x in s.b.rows && x.id == e.id {
      var i :| 0 <= i < |s'.b.rows| && s'.b.rows[i] == e;
      assert s.b.rows[i] in s.b.rows;
    }
    assert Held(s'.b) == s'.b.rows;
    assert Memory(s'.b) == [];
  }

  lemma ConsentOpenedEmpty(s: State, initial: Consent)
    requires Order(s) && ConsentInv(s) && (s.marker || initial != Granted)
    ensures ConsentInv(OpenedEmpty(s, initial))
  {
    HeldAll(s.b);
    assert Held(OpenedEmpty(s, initial).b) == [];
    assert Memory(OpenedEmpty(s, initial).b) == [];
  }

  // ---- every step, every run ----

  lemma ConsentOther(s: State, step: Step)
    requires ConsentInv(s) && s.up
    requires !step.Work? && !step.Dies? && !step.Revoke? && !step.Grant? && !step.Consenting?
             && !step.Producing? && !step.Crash?
    requires Pending(s.cl, |s.log.admitted|)
    ensures ConsentInv(NextUp(s, step))
  {
    ConsentCalling(s, NextUp(s, step));
  }

  lemma ConsentUp(s: State, step: Step)
    requires Order(s) && ConsentInv(s) && s.up
    ensures ConsentInv(NextUp(s, step))
  {
    match step
    case Work(ok, fault) => ConsentWorker(s, ok, fault);
    case Dies => ConsentDied(s);
    case Revoke(target) =>
      if s.cl.c.pc.ConsentIdle? && AdmissionFree(s) && target != Granted { ConsentRevoked(s, target); }
    case Grant => if s.cl.c.pc.ConsentIdle? { ConsentGranting(s); }
    case Consenting(ok) => ConsentCalls(s, ok);
    case Producing => ConsentProducer(s);
    case Crash => ConsentCrashed(s);
    case _ => ConsentOther(s, step);
  }

  lemma ConsentStep(s: State, step: Step)
    requires Order(s) && ConsentInv(s)
    ensures ConsentInv(Next(s, step))
  {
    if s.up { ConsentUp(s, step); }
    else if step.Open? {
      if s.marker || step.initial != Granted { ConsentOpenedEmpty(s, step.initial); }
      else { ConsentOpenedGranted(s); }
    }
  }

  lemma {:induction false} ConsentAlways(cfg: Config, steps: seq<Step>)
    requires ValidConfig(cfg)
    ensures Order(Exec(Init(cfg), steps)) && ConsentInv(Exec(Init(cfg), steps))
  {
    OrderAlways(cfg, steps);
    if steps == [] {
      assert Held(Init(cfg).b) == [];
    } else {
      ConsentAlways(cfg, steps[..|steps| - 1]);
      ConsentStep(Exec(Init(cfg), steps[..|steps| - 1]), steps[|steps| - 1]);
    }
  }

  // ---- without consent the queue is empty ----

  /** From the moment a revocation has cleared it, the queue stays empty until a new grant. */
  predicate QueueOff(s: State) {
    s.up && s.cl.consent != Granted && !s.cl.c.pc.Bump? && !s.cl.c.pc.ClearQueue? ==> s.b.queue == []
  }

  lemma QueueOffWorker(s: State, ok: bool, fault: FetchFault)
    requires QueueOff(s)
    ensures QueueOff(WorkerNext(s, ok, fault))
  {
    WorkerFrees(s, ok, fault);
    if Moves(s.k.w.pc) { MovingCallers(s, ok, fault); }
  }

  lemma QueueOffConsent(s: State, ok: bool)
    requires QueueOff(s)
    ensures QueueOff(ConsentNext(s, ok))
  {}

  lemma QueueOffProducer(s: State)
    requires ConsentInv(s) && QueueOff(s)
    ensures QueueOff(ProducerNext(s))
  {
    ProducerSpares(s);
  }

  lemma QueueOffOther(s: State, step: Step)
    requires QueueOff(s) && s.up && !step.Work? && !step.Consenting? && !step.Producing?
    ensures QueueOff(NextUp(s, step))
  {}

  lemma QueueOffStep(s: State, step: Step)
    requires ConsentInv(s) && QueueOff(s)
    ensures QueueOff(Next(s, step))
  {
    if s.up {
      match step
      case Work(ok, fault) => QueueOffWorker(s, ok, fault);
      case Consenting(ok) => QueueOffConsent(s, ok);
      case Producing => QueueOffProducer(s);
      case _ => QueueOffOther(s, step);
    }
  }

  lemma {:induction false} QueueOffAlways(cfg: Config, steps: seq<Step>)
    requires ValidConfig(cfg)
    ensures QueueOff(Exec(Init(cfg), steps))
  {
    if steps != [] {
      var front := steps[..|steps| - 1];
      QueueOffAlways(cfg, front);
      ConsentAlways(cfg, front);
      QueueOffStep(Exec(Init(cfg), front), steps[|steps| - 1]);
    }
  }
}
