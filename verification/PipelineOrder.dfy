/**
  * Order: rows, retry buffer, the worker's hands and the queue, read in that sequence, are
  * always in admission order, over faults, revocations, crashes and restarts; hence events
  * are acknowledged in admission order.
  */
module PipelineOrder {
  import opened Events
  import opened StoreSpec
  import opened Pipeline
  import opened PipelineFlow

  /** Every event the pipeline holds. */
  function Held(b: Buffers): seq<Event> {
    b.rows + (b.retry + (b.keep + (b.hand + b.queue)))
  }

  // ---- the invariant, in terms of the parts it depends on ----

  predicate HoldsHand(pc: WorkerPc) {
    pc.TakeRetry? || pc.LatchGen? || pc.ReadConsent? || pc.DiscardBatch? || pc.Sift?
  }

  predicate HoldsKeep(pc: WorkerPc) {
    || pc.Sift? || pc.BoundaryConsent? || pc.BoundaryGen? || pc.Insert? || pc.DiscardKeep?
    || pc.Hold?
  }

  /** Which buffers are in use where, and that the retry buffer is empty while the worker
      holds what it took from it. */
  predicate Registers(pc: WorkerPc, b: Buffers) {
    && (!HoldsHand(pc) ==> b.hand == [])
    && (!HoldsKeep(pc) ==> b.keep == [])
    && (HoldsKeep(pc) || pc.LatchGen? || pc.ReadConsent? || pc.DiscardBatch? ==> b.retry == [])
  }

  /** The event between its count and its push is the next to be admitted, and a revocation
      and a producer never both hold the admission lock. */
  predicate Pending(cl: Callers, admitted: nat) {
    && (cl.p.pend != [] <==> cl.p.pc.Push?)
    && (cl.p.pend != [] ==>
          && |cl.p.pend| == 1 && cl.p.pend[0].id == admitted && cl.p.pend[0].gen == cl.gen
          && cl.p.pend[0].ordinal == cl.ordinal && cl.ordinal >= 1)
    && (cl.p.pc.ProducerIdle? || !RevokeHoldsAdmission(cl.c))
  }

  /** `e` is the event that was admitted under its identifier. */
  predicate Genuine(e: Event, admitted: seq<Event>) {
    e.id < |admitted| && e.(gen := 0) == admitted[e.id].(gen := 0)
  }

  /** In admission order, each one genuine, and none above the published ordinal. */
  predicate Lined(held: seq<Event>, up: bool, published: nat, admitted: seq<Event>) {
    && Ascending(held)
    && forall e :: e in held ==> 1 <= e.ordinal && (up ==> e.ordinal <= published) && Genuine(e, admitted)
  }

  predicate Delivering(pc: WorkerPc) {
    || pc.SettleQuarantine? || pc.LatchDeliveryGen? || pc.PreWriteConsent? || pc.StartWrite?
    || pc.Writing? || pc.RecheckConsent? || pc.RecheckGen? || pc.Ack?
  }

  /** The fetched batch is the usable part of the oldest rows, unless a purge emptied the store. */
  predicate BatchOldest(pc: WorkerPc, batch: seq<Event>, scanned: nat, rows: seq<Event>) {
    Delivering(pc) ==>
      rows == [] || (scanned <= |rows| && batch == Usable(rows[..scanned]))
  }

  /** Acknowledged in admission order, and before every deliverable event still held. */
  predicate AckedFirst(acked: seq<nat>, held: seq<Event>, admitted: nat) {
    && Increasing(acked)
    && (forall x :: x in acked ==> x < admitted)
    && forall x, e :: x in acked && e in held && e.payload.parses ==> x < e.id
  }

  predicate Order(s: State) {
    && ValidConfig(s.cfg)
    && Registers(s.k.w.pc, s.b)
    && Pending(s.cl, |s.log.admitted|)
    && Lined(Held(s.b), s.up, Published(s.cl), s.log.admitted)
    && BatchOldest(s.k.w.pc, s.k.w.batch, s.k.w.scanned, s.b.rows)
    && AckedFirst(s.fate.acked, Held(s.b), |s.log.admitted|)
  }

  // ---- events only leave the line, or join it at the end ----

  predicate Below(xs: seq<Event>, ys: seq<Event>) {
    forall x, y :: x in xs && y in ys ==> x.id < y.id && x.ordinal < y.ordinal
  }

  /** `xs` is `ys` with some events left out. */
  predicate Part(xs: seq<Event>, ys: seq<Event>) {
    Ascending(xs) && forall e :: e in xs ==> e in ys
  }

  predicate Apart(b: Buffers) {
    && Below(b.rows, b.retry + (b.keep + (b.hand + b.queue)))
    && Below(b.retry, b.keep + (b.hand + b.queue))
    && Below(b.keep, b.hand + b.queue)
    && Below(b.hand, b.queue)
  }

  predicate EachAscending(b: Buffers) {
    && Ascending(b.rows) && Ascending(b.retry) && Ascending(b.keep) && Ascending(b.hand)
    && Ascending(b.queue)
  }

  lemma LineParts(b: Buffers)
    requires Ascending(Held(b))
    ensures EachAscending(b) && Apart(b)
  {
    AscendingParts(b.rows, b.retry + (b.keep + (b.hand + b.queue)));
    AscendingParts(b.retry, b.keep + (b.hand + b.queue));
    AscendingParts(b.keep, b.hand + b.queue);
    AscendingParts(b.hand, b.queue);
  }

  lemma JoinLine(b: Buffers)
    requires EachAscending(b) && Apart(b)
    ensures Ascending(Held(b))
  {
    AscendingJoin(b.hand, b.queue);
    AscendingJoin(b.keep, b.hand + b.queue);
    AscendingJoin(b.retry, b.keep + (b.hand + b.queue));
    AscendingJoin(b.rows, b.retry + (b.keep + (b.hand + b.queue)));
  }

  predicate Shrinks(b: Buffers, b': Buffers) {
    && Part(b'.rows, b.rows) && Part(b'.retry, b.retry) && Part(b'.keep, b.keep)
    && Part(b'.hand, b.hand) && Part(b'.queue, b.queue)
  }

  lemma LineShrinks(b: Buffers, b': Buffers)
    requires Ascending(Held(b)) && Shrinks(b, b')
    ensures Part(Held(b'), Held(b))
  {
    LineParts(b);
    JoinLine(b');
  }

  lemma TailPart(es: seq<Event>)
    requires Ascending(es) && es != []
    ensures Part(es[1..], es)
  {
    AscendingParts([es[0]], es[1..]);
    assert es == [es[0]] + es[1..];
  }

  /** What holds of the line holds of part of it. */
  lemma PartKeeps(held: seq<Event>, held': seq<Event>, up: bool, published: nat, admitted: seq<Event>,
                  acked: seq<nat>)
    requires Lined(held, up, published, admitted) && AckedFirst(acked, held, |admitted|)
    requires Part(held', held)
    ensures Lined(held', up, published, admitted) && AckedFirst(acked, held', |admitted|)
  {}

  /** Any step that only leaves events out keeps the order, if it leaves the registers right. */
  lemma OrderShrinks(s: State, s': State)
    requires Order(s) && Shrinks(s.b, s'.b)
    requires s'.cfg == s.cfg && s'.up == s.up && Published(s'.cl) == Published(s.cl)
    requires s'.log.admitted == s.log.admitted && s'.fate.acked == s.fate.acked
    requires Registers(s'.k.w.pc, s'.b) && Pending(s'.cl, |s'.log.admitted|)
    requires BatchOldest(s'.k.w.pc, s'.k.w.batch, s'.k.w.scanned, s'.b.rows)
    ensures Order(s')
  {
    LineShrinks(s.b, s'.b);
    PartKeeps(Held(s.b), Held(s'.b), s.up, Published(s.cl), s.log.admitted, s.fate.acked);
  }

  // ---- the worker ----

  lemma OrderQuiet(s: State, ok: bool)
    requires Order(s) && !Moves(s.k.w.pc)
    ensures Order(s.(k := QuietNext(s, ok)))
  {
    QuietFlow(s, ok);
    QuietBatch(s, ok);
  }

  lemma OrderDrain(s: State)
    requires Order(s) && s.k.w.pc.Pop?
    ensures Order(Drain(s))
  {
    assert Held(Drain(s).b) == Held(s.b);
  }

  lemma OrderTakeRetry(s: State)
    requires Order(s) && s.k.w.pc.TakeRetry?
    ensures Order(JoinRetry(s))
  {
    assert Held(JoinRetry(s).b) == Held(s.b);
  }

  lemma OrderDropIncoming(s: State)
    requires Order(s) && s.k.w.pc.DiscardBatch?
    ensures Order(DropIncoming(s))
  {
    LineParts(s.b);
    OrderShrinks(s, DropIncoming(s));
  }

  lemma OrderSiftDrop(s: State, s': State)
    requires Order(s) && s.k.w.pc.Sift? && s.b.hand != []
    requires s' == SiftStale(s) || s' == SiftInvalid(s)
    ensures Order(s')
  {
    LineParts(s.b);
    TailPart(s.b.hand);
    OrderShrinks(s, s');
  }

  lemma OrderSiftKeep(s: State)
    requires Order(s) && s.k.w.pc.Sift? && s.b.hand != []
    ensures Order(SiftKeep(s))
  {
    assert s.b.hand == [s.b.hand[0]] + s.b.hand[1..];
    assert Held(SiftKeep(s).b) == Held(s.b);
  }

  lemma LineInserted(b: Buffers)
    requires Ascending(Held(b)) && b.retry == []
    ensures InsertIgnore(b.rows, b.keep) == b.rows + b.keep
    ensures Held(b.(rows := b.rows + b.keep, keep := [])) == Held(b)
  {
    InsertedLine(b.rows, b.keep, b.hand + b.queue);
    assert b.retry + (b.keep + (b.hand + b.queue)) == b.keep + (b.hand + b.queue);
    AscendingParts(b.rows + b.keep, b.hand + b.queue);
    InsertFresh(b.rows, b.keep);
  }

  lemma InsertedLine(rows: seq<Event>, keep: seq<Event>, rest: seq<Event>)
    ensures rows + (keep + rest) == (rows + keep) + rest
    ensures (rows + keep) + ([] + ([] + rest)) == (rows + keep) + rest
  {}

  lemma OrderStored(s: State)
    requires Order(s) && s.k.w.pc.Insert?
    ensures Order(Stored(s))
    ensures Held(Stored(s).b) == Held(s.b) && Stored(s).b.rows == s.b.rows + s.b.keep
  {
    LineInserted(s.b);
  }

  lemma OrderDropKept(s: State)
    requires Order(s) && s.k.w.pc.DiscardKeep?
    ensures Order(DropKept(s))
  {
    LineParts(s.b);
    OrderShrinks(s, DropKept(s));
  }

  lemma OrderHold(s: State)
    requires Order(s) && s.k.w.pc.Hold?
    ensures Order(HoldForRetry(s))
  {
    assert Held(HoldForRetry(s).b) == Held(s.b);
  }

  // fetch: the batch is the usable part of the oldest rows, and only unusable rows leave

  lemma FetchOldest(rows: seq<Event>, limit: nat, fault: FetchFault)
    requires Ascending(rows)
    ensures var f, n := FetchPending(rows, limit, fault), Scanned(rows, limit, fault);
            && f.events == Usable(rows[..n])
            && (f.quarantined == 0 ==> f.rows == rows)
            && (f.quarantined > 0 ==> f.rows == f.events + rows[n..])
            && f.quarantined + |f.rows| == |rows|
  {
    OrderedAlready(rows);
    var n := Scanned(rows, limit, fault);
    RemoveUnusable(rows, n);
    UsableSplit(rows[..n]);
  }

  lemma UsablePrefix(rows: seq<Event>, n: nat)
    requires n <= |rows|
    ensures var us := Usable(rows[..n]);
            (us + rows[n..])[..|us|] == us && Usable(us) == us
  {
    UsableSplit(rows[..n]);
    UsableAll(Usable(rows[..n]));
  }

  /** Rows with some of the first `n` left out. */
  lemma RowsPart(rows: seq<Event>, n: nat)
    requires Ascending(rows) && n <= |rows|
    ensures Part(Usable(rows[..n]) + rows[n..], rows)
    ensures Part(Unusable(rows[..n]) + rows[n..], rows)
  {
    RemoveUnusable(rows, n);
    RemoveUsable(rows, n);
    WithoutAscending(rows, IdSet(Unusable(rows[..n])));
    WithoutAscending(rows, IdSet(Usable(rows[..n])));
    WithoutMembers(rows, IdSet(Unusable(rows[..n])));
    WithoutMembers(rows, IdSet(Usable(rows[..n])));
  }

  lemma OrderFetched(s: State, f: FetchResult, n: nat)
    requires Order(s) && s.k.w.pc.Fetch?
    requires n <= |s.b.rows| && f.events == Usable(s.b.rows[..n])
    ensures Order(Fetched(s, f, n))
  {}

  lemma BatchQuarantined(rows: seq<Event>, n: nat, pc: WorkerPc)
    requires n <= |rows|
    ensures var us := Usable(rows[..n]); BatchOldest(pc, us, |us|, us + rows[n..])
  {
    UsablePrefix(rows, n);
  }

  lemma OrderFewerRows(s: State, s': State)
    requires Order(s) && s.k.w.pc.Fetch? && s'.k.w.pc.SettleQuarantine?
    requires s'.b == s.b.(rows := s'.b.rows) && Part(s'.b.rows, s.b.rows)
    requires s'.cfg == s.cfg && s'.up == s.up && s'.cl == s.cl && s'.log == s.log && s'.fate.acked == s.fate.acked
    requires BatchOldest(s'.k.w.pc, s'.k.w.batch, s'.k.w.scanned, s'.b.rows)
    ensures Order(s')
  {
    LineParts(s.b);
    OrderShrinks(s, s');
  }

  lemma OrderQuarantined(s: State, f: FetchResult, n: nat)
    requires Order(s) && s.k.w.pc.Fetch?
    requires n <= |s.b.rows| && f.events == Usable(s.b.rows[..n])
    requires f.rows == f.events + s.b.rows[n..]
    ensures Order(FetchedAndQuarantined(s, f))
  {
    AscendingParts(s.b.rows, s.b.retry + (s.b.keep + (s.b.hand + s.b.queue)));
    RowsPart(s.b.rows, n);
    BatchQuarantined(s.b.rows, n, SettleQuarantine);
    OrderFewerRows(s, FetchedAndQuarantined(s, f));
  }

  lemma OrderWritten(s: State)
    requires Order(s) && s.k.w.pc.Writing?
    ensures Order(Written(s))
  {}

  // acknowledgment

  lemma {:induction false} RemovedAll(rows: seq<Event>, batch: seq<Event>)
    requires forall e :: e in batch ==> e in rows
    ensures Removed(rows, batch) == batch
  {
    if batch != [] {
      assert batch[0] in batch;
      RemovedAll(rows, batch[1..]);
    }
  }

  lemma {:induction false} RemovedNone(rows: seq<Event>, batch: seq<Event>)
    requires rows == []
    ensures Removed(rows, batch) == []
  {
    if batch != [] {
      RemovedNone(rows, batch[1..]);
    }
  }

  /** An acknowledgment removes the whole batch, or finds the store empty. */
  lemma AckAllOrNone(s: State)
    requires Order(s) && s.k.w.pc.Ack?
    ensures var removed, rows' := Removed(s.b.rows, s.k.w.batch), Without(s.b.rows, IdSet(s.k.w.batch));
            || (s.b.rows == [] && removed == [] && rows' == [])
            || (&& s.k.w.scanned <= |s.b.rows| && s.k.w.batch == Usable(s.b.rows[..s.k.w.scanned])
                && removed == s.k.w.batch
                && rows' == Unusable(s.b.rows[..s.k.w.scanned]) + s.b.rows[s.k.w.scanned..])
  {
    LineParts(s.b);
    if s.b.rows == [] {
      RemovedNone(s.b.rows, s.k.w.batch);
    } else {
      RemoveUsable(s.b.rows, s.k.w.scanned);
      UsableSplit(s.b.rows[..s.k.w.scanned]);
      RemovedAll(s.b.rows, s.k.w.batch);
    }
  }

  lemma IncreasingJoin(acked: seq<nat>, batch: seq<Event>)
    requires Increasing(acked) && Ascending(batch)
    requires forall x, e :: x in acked && e in batch ==> x < e.id
    ensures Increasing(acked + Ids(batch))
  {
    var all := acked + Ids(batch);
    forall i, j | 0 <= i < j < |all| ensures all[i] < all[j] {
      if i < |acked| <= j {
        assert acked[i] in acked && batch[j - |acked|] in batch;
      }
    }
  }

  lemma AckedNext(rows: seq<Event>, rest: seq<Event>, n: nat, acked: seq<nat>, admitted: nat)
    requires Ascending(rows + rest) && AckedFirst(acked, rows + rest, admitted)
    requires forall e :: e in rows ==> e.id < admitted
    requires n <= |rows|
    ensures AckedFirst(acked + Ids(Usable(rows[..n])), (Unusable(rows[..n]) + rows[n..]) + rest, admitted)
  {
    var head, tail, batch := rows[..n], rows[n..], Usable(rows[..n]);
    AscendingParts(rows, rest);
    assert rows == head + tail;
    AscendingParts(head, tail);
    UsableAscending(head);
    UsableSplit(head);
    IncreasingJoin(acked, batch);
    forall x, e | x in acked + Ids(batch) && e in (Unusable(head) + tail) + rest && e.payload.parses
      ensures x < e.id
    {
      assert e in tail || e in rest;
      AckedOne(acked, batch, x);
    }
    forall x | x in acked + Ids(batch) ensures x < admitted { AckedOne(acked, batch, x); }
  }

  lemma AckedOne(acked: seq<nat>, batch: seq<Event>, x: nat)
    requires x in acked + Ids(batch)
    ensures x in acked || exists e :: e in batch && e.id == x
  {
    if x !in acked {
      var i :| 0 <= i < |batch| && Ids(batch)[i] == x;
      assert batch[i] in batch;
    }
  }

  predicate AckStep(s: State, s': State) {
    s' == Acknowledged(s) || s' == Misacknowledged(s)
  }

  lemma OrderAckedNone(s: State, s': State)
    requires Order(s) && s.k.w.pc.Ack? && AckStep(s, s') && s.b.rows == []
    ensures Order(s')
  {
    AckAllOrNone(s);
    LineParts(s.b);
    assert s'.fate.acked == s.fate.acked;
    OrderShrinks(s, s');
  }

  lemma LineAcked(b: Buffers, n: nat, acked: seq<nat>, up: bool, published: nat, admitted: seq<Event>)
    requires Lined(Held(b), up, published, admitted) && AckedFirst(acked, Held(b), |admitted|)
    requires n <= |b.rows|
    ensures var b' := b.(rows := Unusable(b.rows[..n]) + b.rows[n..]);
            && Lined(Held(b'), up, published, admitted)
            && AckedFirst(acked + Ids(Usable(b.rows[..n])), Held(b'), |admitted|)
  {
    LineParts(b);
    RowsPart(b.rows, n);
    var b' := b.(rows := Unusable(b.rows[..n]) + b.rows[n..]);
    AckedNext(b.rows, b.retry + (b.keep + (b.hand + b.queue)), n, acked, |admitted|);
    LineShrinks(b, b');
    PartKeeps(Held(b), Held(b'), up, published, admitted, acked);
  }

  lemma OrderAckedAll(s: State, s': State)
    requires Order(s) && s.k.w.pc.Ack? && AckStep(s, s') && s.b.rows != []
    ensures Order(s')
  {
    AckAllOrNone(s);
    LineAcked(s.b, s.k.w.scanned, s.fate.acked, s.up, Published(s.cl), s.log.admitted);
  }

  // purge_store

  lemma OrderPurged(s: State)
    requires Order(s) && s.k.w.pc.PurgeStore?
    ensures Order(Purged(s))
  {
    LineParts(s.b);
    OrderShrinks(s, Purged(s));
  }

  lemma OrderPurgeFailed(s: State)
    requires Order(s) && s.k.w.pc.PurgeStore?
    ensures Order(PurgeFailed(s))
  {}

  lemma OrderFetch(s: State, ok: bool, fault: FetchFault)
    requires Order(s) && s.k.w.pc.Fetch?
    ensures Order(MovingNext(s, ok, fault))
  {
    LineParts(s.b);
    FetchOldest(s.b.rows, s.cfg.batch, fault);
    var f, n := FetchPending(s.b.rows, s.cfg.batch, fault), Scanned(s.b.rows, s.cfg.batch, fault);
    if f.quarantined > 0 {
      OrderQuarantined(s, f, n);
      assert MovingNext(s, ok, fault) == FetchedAndQuarantined(s, f);
    } else {
      OrderFetched(s, f, n);
      assert MovingNext(s, ok, fault) == Fetched(s, f, n);
    }
  }

  lemma OrderFailed(s: State, code: Code, pc: WorkerPc)
    requires Order(s) && Registers(pc, s.b) && !Delivering(pc)
    ensures Order(s.(k := FailedAt(s, code, pc)))
  {}

  lemma OrderAck(s: State, ok: bool, fault: FetchFault)
    requires Order(s) && s.k.w.pc.Ack?
    ensures Order(MovingNext(s, ok, fault))
  {
    if !ok { OrderFailed(s, StorageError, AfterDeliver); }
    else if s.b.rows == [] { OrderAckedNone(s, MovingNext(s, ok, fault)); }
    else { OrderAckedAll(s, MovingNext(s, ok, fault)); }
  }

  lemma OrderSift(s: State, ok: bool, fault: FetchFault)
    requires Order(s) && s.k.w.pc.Sift?
    ensures Order(MovingNext(s, ok, fault))
  {
    if s.b.hand != [] {
      if s.b.hand[0].gen != s.k.w.gen { OrderSiftDrop(s, SiftStale(s)); }
      else if !s.b.hand[0].payload.serializes { OrderSiftDrop(s, SiftInvalid(s)); }
      else { OrderSiftKeep(s); }
    } else if s.b.keep == [] { OrderToDeliver(s); }
    else { OrderToBoundary(s); }
  }

  lemma OrderToDeliver(s: State)
    requires Order(s) && s.b.keep == [] && s.b.hand == []
    ensures Order(ToDeliver(s))
  {}

  lemma OrderToBoundary(s: State)
    requires Order(s) && s.k.w.pc.Sift? && s.b.hand == []
    ensures Order(s.(k := At(s, BoundaryConsent)))
  {}

  lemma OrderMoving(s: State, ok: bool, fault: FetchFault)
    requires Order(s) && Moves(s.k.w.pc)
    ensures Order(MovingNext(s, ok, fault))
  {
    match s.k.w.pc
    case Pop => OrderDrain(s);
    case TakeRetry => if s.b.retry + s.b.hand == [] { OrderToDeliver(s); } else { OrderTakeRetry(s); }
    case DiscardBatch => OrderDropIncoming(s);
    case Sift => OrderSift(s, ok, fault);
    case Insert => if ok { OrderStored(s); } else { OrderFailed(s, StorageError, Hold); }
    case DiscardKeep => OrderDropKept(s);
    case Hold => OrderHold(s);
    case Fetch => OrderFetch(s, ok, fault);
    case Writing => if ok { OrderWritten(s); } else { OrderFailed(s, SinkError, AfterDeliver); }
    case Ack => OrderAck(s, ok, fault);
    case PurgeStore => if ok { OrderPurged(s); } else { OrderPurgeFailed(s); }
  }

  lemma OrderWorker(s: State, ok: bool, fault: FetchFault)
    requires Order(s)
    ensures Order(WorkerNext(s, ok, fault))
  {
    if Moves(s.k.w.pc) { OrderMoving(s, ok, fault); } else { OrderQuiet(s, ok); }
  }

  lemma OrderDied(s: State)
    requires Order(s)
    ensures Order(WorkerDied(s))
  {
    LineParts(s.b);
    OrderShrinks(s, WorkerDied(s));
  }

  // ---- the callers ----

  /** Steps of the callers that neither move nor publish an event. */
  lemma OrderCalling(s: State, s': State)
    requires Order(s)
    requires s'.cfg == s.cfg && s'.up == s.up && s'.b == s.b && s'.k.w == s.k.w
    requires Published(s'.cl) == Published(s.cl) && Pending(s'.cl, |s.log.admitted|)
    requires s'.log.admitted == s.log.admitted && s'.fate.acked == s.fate.acked
    ensures Order(s')
  {}

  lemma OrderConsent(s: State, ok: bool)
    requires Order(s)
    ensures Order(ConsentNext(s, ok))
  {
    LineParts(s.b);
    match s.cl.c.pc
    case ClearQueue => OrderShrinks(s, QueueCleared(s));
    case DiscardRetry => OrderShrinks(s, RetryDiscarded(s));
    case PurgeRows =>
      if ok && !StoreLocked(s) { OrderShrinks(s, CallerPurged(s)); } else { OrderCalling(s, ConsentNext(s, ok)); }
    case _ => OrderConsentCalls(s, ok);
  }

  /** The steps of the consent caller that remove no event. */
  lemma ConsentCallsSpare(s: State, ok: bool)
    requires !s.cl.c.pc.ClearQueue? && !s.cl.c.pc.DiscardRetry? && !s.cl.c.pc.PurgeRows?
    ensures var s' := ConsentNext(s, ok);
            && s'.cfg == s.cfg && s'.up == s.up && s'.b == s.b && s'.k.w == s.k.w
            && s'.log.admitted == s.log.admitted && s'.fate.acked == s.fate.acked
  {}

  lemma ConsentCallsPending(s: State, ok: bool)
    requires Pending(s.cl, |s.log.admitted|)
    ensures var s' := ConsentNext(s, ok);
            Published(s'.cl) == Published(s.cl) && Pending(s'.cl, |s.log.admitted|)
  {}

  lemma OrderConsentCalls(s: State, ok: bool)
    requires Order(s) && !s.cl.c.pc.ClearQueue? && !s.cl.c.pc.DiscardRetry? && !s.cl.c.pc.PurgeRows?
    ensures Order(ConsentNext(s, ok))
  {
    ConsentCallsSpare(s, ok);
    ConsentCallsPending(s, ok);
    OrderCalling(s, ConsentNext(s, ok));
  }

  lemma LinePublished(held: seq<Event>, pend: seq<Event>, ordinal: nat, admitted: seq<Event>, acked: seq<nat>)
    requires ordinal >= 1 && Lined(held, true, ordinal - 1, admitted)
    requires AckedFirst(acked, held, |admitted|)
    requires |pend| == 1 && pend[0].id == |admitted| && pend[0].ordinal == ordinal
    ensures Lined(held + pend, true, ordinal, admitted + pend)
    ensures AckedFirst(acked, held + pend, |admitted + pend|)
  {
    AscendingJoin(held, pend);
    forall e | e in held + pend ensures Genuine(e, admitted + pend) {
      if e in held { assert Genuine(e, admitted); }
    }
  }

  /** The push publishes the event that was counted. */
  lemma OrderPushed(s: State, s': State)
    requires Order(s) && s.up && s.cl.p.pc.Push?
    requires s'.cfg == s.cfg && s'.up && s'.b == s.b.(queue := s.b.queue + s.cl.p.pend)
    requires s'.k.w == s.k.w && s'.fate.acked == s.fate.acked
    requires s'.cl.p.pend == [] && !s'.cl.p.pc.Push? && s'.cl.ordinal == s.cl.ordinal && s'.cl.c == s.cl.c
    requires s'.log.admitted == s.log.admitted + s.cl.p.pend
    ensures Order(s')
    ensures Held(s'.b) == Held(s.b) + s.cl.p.pend
  {
    LinePublished(Held(s.b), s.cl.p.pend, s.cl.ordinal, s.log.admitted, s.fate.acked);
    assert Held(s'.b) == Held(s.b) + s.cl.p.pend;
  }

  lemma OrderProducer(s: State)
    requires Order(s) && s.up
    ensures Order(ProducerNext(s))
  {
    if s.cl.p.pc.Push? && |s.b.queue| < s.cfg.queueCap {
      OrderPushed(s, ProducerNext(s));
    } else if s.cl.p.pc.Push? {
    } else {
      OrderCalling(s, ProducerNext(s));
    }
  }

  // ---- crash and reopening ----

  lemma LineRestamped(rows: seq<Event>, up: bool, published: nat, admitted: seq<Event>, acked: seq<nat>)
    requires Lined(rows, up, published, admitted) && AckedFirst(acked, rows, |admitted|)
    ensures Lined(Restamp(rows), true, MaxOrdinal(rows), admitted)
    ensures AckedFirst(acked, Restamp(rows), |admitted|)
  {
    MaxOrdinalBounds(rows);
    var r := Restamp(rows);
    forall e | e in r ensures exists x :: x in rows && e == x.(gen := 0) {
      var i :| 0 <= i < |r| && r[i] == e;
      assert rows[i] in rows;
    }
  }

  lemma OrderCrashed(s: State)
    requires Order(s)
    ensures Order(Crashed(s))
  {
    LineParts(s.b);
    var s' := Crashed(s);
    assert Held(s'.b) == s.b.rows;
    PartKeeps(Held(s.b), Held(s'.b), s.up, Published(s.cl), s.log.admitted, s.fate.acked);
  }

  lemma OrderOpenedGranted(s: State)
    requires Order(s)
    ensures Order(OpenedGranted(s))
  {
    OrderCrashed(s);
    assert Held(Crashed(s).b) == s.b.rows;
    LineRestamped(s.b.rows, false, 0, s.log.admitted, s.fate.acked);
    assert Held(OpenedGranted(s).b) == Restamp(s.b.rows);
  }

  lemma OrderOpenedEmpty(s: State, initial: Consent)
    requires Order(s)
    ensures Order(OpenedEmpty(s, initial))
  {
    assert Held(OpenedEmpty(s, initial).b) == [];
  }

  // ---- every step, every run ----

  lemma OrderOther(s: State, step: Step)
    requires Order(s) && s.up
    requires !step.Work? && !step.Dies? && !step.Consenting? && !step.Producing? && !step.Crash?
    ensures Order(NextUp(s, step))
  {
    OrderCalling(s, NextUp(s, step));
  }

  lemma OrderUp(s: State, step: Step)
    requires Order(s) && s.up
    ensures Order(NextUp(s, step))
  {
    match step
    case Work(ok, fault) => OrderWorker(s, ok, fault);
    case Dies => OrderDied(s);
    case Consenting(ok) => OrderConsent(s, ok);
    case Producing => OrderProducer(s);
    case Crash => OrderCrashed(s);
    case _ => OrderOther(s, step);
  }

  lemma OrderStep(s: State, step: Step)
    requires Order(s)
    ensures Order(Next(s, step))
  {
    if s.up { OrderUp(s, step); }
    else {
      OrderOpenedGranted(s);
      if step.Open? { OrderOpenedEmpty(s, step.initial); }
    }
  }

  lemma {:induction false} OrderAlways(cfg: Config, steps: seq<Step>)
    requires ValidConfig(cfg)
    ensures Order(Exec(Init(cfg), steps))
  {
    if steps == [] {
      assert Held(Init(cfg).b) == [];
    } else {
      OrderAlways(cfg, steps[..|steps| - 1]);
      OrderStep(Exec(Init(cfg), steps[..|steps| - 1]), steps[|steps| - 1]);
    }
  }

  /** Over any run with faults, revocations, crashes and restarts: events are acknowledged in
      admission order and each at most once, every deliverable event still held was admitted
      later than all of them, and what is held is held in admission order, rows before the
      retry buffer before the worker's hands before the queue. */
  lemma AcknowledgedInAdmissionOrder(s: State)
    requires Reachable(s)
    ensures Increasing(s.fate.acked)
    ensures forall x :: x in s.fate.acked ==> x < |s.log.admitted|
    ensures forall x, e :: x in s.fate.acked && e in Held(s.b) && e.payload.parses ==> x < e.id
    ensures Ascending(Held(s.b))
    ensures forall e :: e in Held(s.b) ==> Genuine(e, s.log.admitted)
  {
    var cfg, steps := ReachedBy(s);
    OrderAlways(cfg, steps);
  }
}
