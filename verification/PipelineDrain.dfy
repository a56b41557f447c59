/**
  * The drain loop of a flush pass while consent is granted and stays so. The loop has no bound
  * on its iterations. As long as something at or below the barrier remains, every turn of the
  * worker lowers a measure; once nothing remains, every turn but an acknowledgment still does, and
  * brings the worker nearer to a count of the stored rows; a count that succeeds ends the loop.
  */
module PipelineDrain {
  import opened Events
  import opened StoreSpec
  import opened Pipeline
  import opened PipelineFlow
  import opened PipelineOrder
  import opened PipelineConsent
  import opened PipelineFlush

  // ---- the loop ----

  predicate Checking(pc: WorkerPc) {
    pc.CheckQueue? || pc.CheckRetry? || pc.CheckStore? || pc.DrainSize?
  }

  predicate Storing(pc: WorkerPc) {
    || pc.TakeRetry? || pc.LatchGen? || pc.ReadConsent? || pc.Sift? || pc.BoundaryConsent?
    || pc.BoundaryGen? || pc.Insert? || pc.Hold?
  }

  predicate InDelivery(pc: WorkerPc) {
    || pc.DeliverConsent? || pc.Fetch? || pc.SettleQuarantine? || pc.LatchDeliveryGen?
    || pc.PreWriteConsent? || pc.StartWrite? || pc.Writing? || pc.RecheckConsent? || pc.RecheckGen?
    || pc.Ack? || pc.SettleAck? || pc.AfterDeliver?
  }

  predicate Dropping(pc: WorkerPc) {
    pc.DiscardBatch? || pc.DiscardKeep? || pc.PurgeStore? || pc.PurgeReset?
  }

  predicate Iterating(pc: WorkerPc) {
    pc.Pop? || Storing(pc) || InDelivery(pc) || Dropping(pc)
  }

  /** The worker is in the drain loop of a flush pass. */
  predicate InDrain(w: Worker) {
    (Checking(w.pc) && !w.pass.final) || (Iterating(w.pc) && w.pass.draining)
  }

  // ---- the measure while something remains ----

  /** Held events at or below the barrier. */
  function Remaining(b: Buffers, barrier: nat): nat {
    CountUpTo(Held(b), barrier)
  }

  /** Events of a generation other than `gen`. */
  function Outdated(es: seq<Event>, gen: nat): nat {
    if es == [] then 0 else Outdated(es[1..], gen) + if es[0].gen != gen then 1 else 0
  }

  /** Something has been delivered in this iteration. */
  predicate HasDelivered(w: Worker) {
    w.pc.SettleAck? || (InDelivery(w.pc) && w.pass.delivered)
  }

  /** Something has been taken from the queue in this iteration. */
  predicate HasMoved(w: Worker) {
    (Storing(w.pc) || InDelivery(w.pc)) && w.pass.moved
  }

  function Taken(b: Buffers): nat {
    |b.rows| + |b.retry| + |b.keep| + |b.hand|
  }

  /** How many more events the worker could take without delivering any. */
  function Room(b: Buffers, limit: nat): nat {
    if Taken(b) <= limit then limit - Taken(b) else 0
  }

  function Stage(pc: WorkerPc): nat {
    if InDelivery(pc) then 0 else 1
  }

  function RowsToGo(pc: WorkerPc, rows: seq<Event>): nat {
    if pc.SettleAck? then |rows| + 1 else if InDelivery(pc) then |rows| else 0
  }

  function Rank(pc: WorkerPc): nat {
    match pc
    case CheckQueue => 30
    case CheckRetry => 29
    case CheckStore => 28
    case DrainSize => 27
    case Pop => 26
    case TakeRetry => 25
    case LatchGen => 24
    case ReadConsent => 23
    case Sift => 22
    case BoundaryConsent => 21
    case BoundaryGen => 20
    case Insert => 19
    case Hold => 18
    case DeliverConsent => 17
    case Fetch => 16
    case SettleQuarantine => 15
    case LatchDeliveryGen => 14
    case PreWriteConsent => 13
    case StartWrite => 12
    case Writing => 11
    case RecheckConsent => 10
    case RecheckGen => 9
    case Ack => 8
    case SettleAck => 7
    case AfterDeliver => 6
    case _ => 0
  }

  /** Compared lexicographically, in this order. */
  datatype Measure = Measure(stale: nat, remaining: nat, room: nat, stage: nat, rows: nat, rank: nat, hand: nat)

  /** The surroundings that stay fixed: the generation in force, and a limit on what is held. */
  datatype Frame = Frame(gen: nat, limit: nat)

  function MeasureOf(w: Worker, b: Buffers, f: Frame): Measure {
    Measure(Outdated(Held(b), f.gen),
            Remaining(b, w.pass.barrier) + (if HasDelivered(w) then 1 else 0),
            if HasDelivered(w) then 0 else Room(b, f.limit) + (if HasMoved(w) then 1 else 0),
            Stage(w.pc), RowsToGo(w.pc, b.rows), Rank(w.pc), |b.hand|)
  }

  predicate Less(m: Measure, n: Measure) {
    || m.stale < n.stale
    || (m.stale == n.stale && m.remaining < n.remaining)
    || (m.stale == n.stale && m.remaining == n.remaining && m.room < n.room)
    || (m.stale == n.stale && m.remaining == n.remaining && m.room == n.room
        && (|| m.stage < n.stage
            || (m.stage == n.stage && m.rows < n.rows)
            || (m.stage == n.stage && m.rows == n.rows && m.rank < n.rank)
            || (m.stage == n.stage && m.rows == n.rows && m.rank == n.rank && m.hand < n.hand)))
  }

  // ---- the way to the next count, once nothing remains ----

  function NearStage(pc: WorkerPc): nat {
    if InDelivery(pc) then 1 else if pc.CheckQueue? || pc.CheckRetry? || pc.CheckStore? then 0 else 2
  }

  function Way(w: Worker, b: Buffers): Measure {
    Measure(0, 0, 0, NearStage(w.pc), RowsToGo(w.pc, b.rows), Rank(w.pc), |b.hand|)
  }

  // ---- what holds in the loop ----

  predicate HoldsBatch(pc: WorkerPc) {
    || pc.LatchDeliveryGen? || pc.PreWriteConsent? || pc.StartWrite? || pc.Writing? || pc.RecheckConsent?
    || pc.RecheckGen? || pc.Ack?
  }

  /** The worker goes by a generation it has read in this iteration. */
  predicate Latched(pc: WorkerPc) {
    || pc.ReadConsent? || pc.Sift? || pc.BoundaryConsent? || pc.BoundaryGen? || pc.PreWriteConsent?
    || pc.StartWrite? || pc.Writing? || pc.RecheckConsent? || pc.RecheckGen?
  }

  predicate LoopOk(w: Worker, b: Buffers, gen: nat) {
    && InDrain(w) && !w.pass.final && !Dropping(w.pc) && !w.pc.SettleQuarantine?
    && (w.pc.Pop? ==> w.pass.queueBefore <= |b.queue|)
    && ((Storing(w.pc) || InDelivery(w.pc)) && !w.pass.moved ==> w.pass.queueBefore == 0)
    && (HoldsBatch(w.pc) ==> w.batch != [])
    && (Latched(w.pc) ==> w.gen == gen)
  }

  /** A turn of the worker leaves the loop or lowers the measure, unless it acknowledges events
      with nothing left; and with nothing left it comes nearer to the next count. */
  predicate Advances(w: Worker, b: Buffers, w': Worker, b': Buffers, f: Frame) {
    InDrain(w') ==>
      && LoopOk(w', b', f.gen) && w'.pass.barrier == w.pass.barrier
      && (Remaining(b, w.pass.barrier) > 0 || !w.pc.Ack? || b' == b ==>
            Less(MeasureOf(w', b', f), MeasureOf(w, b, f)))
      && (Remaining(b, w.pass.barrier) == 0 && !w.pc.CheckStore? ==> Less(Way(w', b'), Way(w, b)))
  }

  // ---- counting ----

  lemma {:induction false} CountJoin(a: seq<Event>, b: seq<Event>, barrier: nat)
    ensures CountUpTo(a + b, barrier) == CountUpTo(a, barrier) + CountUpTo(b, barrier)
  {
    if a == [] {
      assert a + b == b;
    } else {
      assert (a + b)[1..] == a[1..] + b;
      CountJoin(a[1..], b, barrier);
    }
  }

  lemma {:induction false} OutdatedJoin(a: seq<Event>, b: seq<Event>, gen: nat)
    ensures Outdated(a + b, gen) == Outdated(a, gen) + Outdated(b, gen)
  {
    if a == [] {
      assert a + b == b;
    } else {
      assert (a + b)[1..] == a[1..] + b;
      OutdatedJoin(a[1..], b, gen);
    }
  }

  lemma SomeRemain(b: Buffers, e: Event, barrier: nat)
    requires e in Held(b) && e.ordinal <= barrier
    ensures Remaining(b, barrier) > 0
  {
    CountUpToZero(Held(b), barrier);
  }

  // ---- steps that move no event ----

  /** A step that moves no event and stays in the same iteration. */
  lemma RankDrops(w: Worker, w': Worker, b: Buffers, f: Frame)
    requires LoopOk(w', b, f.gen) && w'.pass.barrier == w.pass.barrier
    requires HasDelivered(w') == HasDelivered(w) && HasMoved(w') == HasMoved(w)
    requires Stage(w'.pc) == Stage(w.pc) && RowsToGo(w'.pc, b.rows) == RowsToGo(w.pc, b.rows)
    requires Rank(w'.pc) < Rank(w.pc)
    requires Remaining(b, w.pass.barrier) == 0 && !w.pc.CheckStore? ==> NearStage(w'.pc) == NearStage(w.pc)
    ensures Advances(w, b, w', b, f)
  {}

  lemma QueueChecked(s: State, f: Frame)
    requires LoopOk(s.k.w, s.b, f.gen) && s.k.w.pc.CheckQueue?
    ensures Advances(s.k.w, s.b, TestedQueue(s).w, s.b, f)
  {
    var w := TestedQueue(s).w;
    if QueueRemains(s) { SomeRemain(s.b, s.b.queue[0], s.k.w.pass.barrier); }
    if InDrain(w) { RankDrops(s.k.w, w, s.b, f); }
  }

  lemma RetryChecked(s: State, f: Frame)
    requires LoopOk(s.k.w, s.b, f.gen) && s.k.w.pc.CheckRetry?
    ensures Advances(s.k.w, s.b, TestedRetry(s).w, s.b, f)
  {
    var w := TestedRetry(s).w;
    if RetryRemains(s) { SomeRemain(s.b, s.b.retry[0], s.k.w.pass.barrier); }
    RankDrops(s.k.w, w, s.b, f);
  }

  lemma StoreChecked(s: State, counts: bool, f: Frame)
    requires LoopOk(s.k.w, s.b, f.gen) && s.k.w.pc.CheckStore?
    ensures Advances(s.k.w, s.b, TestedStore(s, counts).w, s.b, f)
  {
    var w := TestedStore(s, counts).w;
    if InDrain(w) { RankDrops(s.k.w, w, s.b, f); }
  }

  /** A count that succeeds when nothing remains ends the loop. */
  lemma CountEnds(s: State)
    requires s.k.w.pc.CheckStore? && !s.k.w.pass.final && Remaining(s.b, s.k.w.pass.barrier) == 0
    ensures !InDrain(TestedStore(s, true).w)
  {
    CountJoin(s.b.rows, s.b.retry + (s.b.keep + (s.b.hand + s.b.queue)), s.k.w.pass.barrier);
  }

  lemma DrainSized(s: State, f: Frame)
    requires LoopOk(s.k.w, s.b, f.gen) && s.k.w.pc.DrainSize?
    ensures Advances(s.k.w, s.b, DrainAgain(s).w, s.b, f)
  {
    RankDrops(s.k.w, DrainAgain(s).w, s.b, f);
  }

  predicate Reads(pc: WorkerPc) {
    || pc.LatchGen? || pc.ReadConsent? || pc.BoundaryConsent? || pc.BoundaryGen? || pc.DeliverConsent?
    || pc.LatchDeliveryGen? || pc.PreWriteConsent? || pc.StartWrite? || pc.RecheckConsent? || pc.RecheckGen?
  }

  lemma ReadsKeepPass(s: State, ok: bool)
    requires Reads(s.k.w.pc)
    ensures QuietNext(s, ok).w.pass == s.k.w.pass
  {}

  /** With consent granted and the generation as it was read, nothing is dropped. */
  lemma ReadsAgree(s: State, ok: bool)
    requires Reads(s.k.w.pc) && s.cl.consent == Granted && (Latched(s.k.w.pc) ==> s.k.w.gen == s.cl.gen)
    ensures var w := QuietNext(s, ok).w;
            && Rank(w.pc) < Rank(s.k.w.pc) && Iterating(w.pc)
            && !Dropping(w.pc) && !w.pc.SettleQuarantine? && !w.pc.SettleAck? && !w.pc.Pop?
            && (InDelivery(w.pc) <==> InDelivery(s.k.w.pc)) && (Storing(w.pc) <==> Storing(s.k.w.pc))
            && (Latched(w.pc) ==> w.gen == s.cl.gen)
            && (HoldsBatch(w.pc) ==> HoldsBatch(s.k.w.pc))
  {
    match s.k.w.pc
    case LatchGen =>
    case ReadConsent =>
    case BoundaryConsent =>
    case BoundaryGen =>
    case DeliverConsent =>
    case LatchDeliveryGen =>
    case PreWriteConsent =>
    case StartWrite =>
    case RecheckConsent =>
    case RecheckGen =>
  }

  lemma ReadAdvances(s: State, ok: bool, f: Frame)
    requires LoopOk(s.k.w, s.b, f.gen) && Reads(s.k.w.pc) && s.cl.consent == Granted && s.cl.gen == f.gen
    ensures Advances(s.k.w, s.b, QuietNext(s, ok).w, s.b, f)
  {
    ReadsAgree(s, ok);
    QuietBatch(s, ok);
    ReadsKeepPass(s, ok);
    RankDrops(s.k.w, QuietNext(s, ok).w, s.b, f);
  }

  lemma SettleAdvances(s: State, f: Frame)
    requires LoopOk(s.k.w, s.b, f.gen) && s.k.w.pc.SettleAck?
    ensures Advances(s.k.w, s.b, DeliverySettled(s).w, s.b, f)
  {}

  lemma AfterAdvances(s: State, f: Frame)
    requires LoopOk(s.k.w, s.b, f.gen) && s.k.w.pc.AfterDeliver?
    ensures Advances(s.k.w, s.b, AfterDelivery(s).w, s.b, f)
  {}

  lemma QuietAdvances(s: State, ok: bool, f: Frame)
    requires LoopOk(s.k.w, s.b, f.gen) && s.cl.consent == Granted && s.cl.gen == f.gen && !Moves(s.k.w.pc)
    ensures Advances(s.k.w, s.b, QuietNext(s, ok).w, s.b, f)
  {
    match s.k.w.pc
    case CheckQueue => QueueChecked(s, f);
    case CheckRetry => RetryChecked(s, f);
    case CheckStore => StoreChecked(s, ok, f);
    case DrainSize => DrainSized(s, f);
    case SettleAck => SettleAdvances(s, f);
    case AfterDeliver => AfterAdvances(s, f);
    case _ => ReadAdvances(s, ok, f);
  }

  // ---- steps that move events ----

  /** A step that rearranges the worker's share of the line. */
  lemma MoveAdvances(w: Worker, b: Buffers, w': Worker, b': Buffers, f: Frame)
    requires LoopOk(w, b, f.gen) && LoopOk(w', b', f.gen) && w'.pass.barrier == w.pass.barrier
    requires Held(b') == Held(b) && Taken(b') == Taken(b)
    requires Storing(w.pc) && (Storing(w'.pc) || w'.pc.DeliverConsent?) && w'.pass.moved == w.pass.moved
    requires w'.pc.DeliverConsent? ==> !w'.pass.delivered
    requires w'.pc.DeliverConsent? || Rank(w'.pc) < Rank(w.pc) || (w'.pc == w.pc && |b'.hand| < |b.hand|)
    ensures Advances(w, b, w', b', f)
  {
    assert HasMoved(w') == HasMoved(w) && !HasDelivered(w') && !HasDelivered(w);
    assert Less(MeasureOf(w', b', f), MeasureOf(w, b, f));
    assert Less(Way(w', b'), Way(w, b));
  }

  lemma DrainAdvances(s: State, f: Frame)
    requires LoopOk(s.k.w, s.b, f.gen) && s.k.w.pc.Pop? && s.b.hand == [] && s.cfg.batch >= 1
    requires |Held(s.b)| <= f.limit
    ensures Advances(s.k.w, s.b, Drain(s).k.w, Drain(s).b, f)
  {
    DrainedLine(s.b, Min(s.cfg.batch, |s.b.queue|));
  }

  lemma TakeRetryAdvances(s: State, ok: bool, fault: FetchFault, f: Frame)
    requires LoopOk(s.k.w, s.b, f.gen) && s.k.w.pc.TakeRetry? && s.b.keep == []
    ensures Advances(s.k.w, s.b, MovingNext(s, ok, fault).k.w, MovingNext(s, ok, fault).b, f)
  {
    JoinedLine(s.b);
    var s' := MovingNext(s, ok, fault);
    MoveAdvances(s.k.w, s.b, s'.k.w, s'.b, f);
  }

  /** An event of an older generation goes: one outdated event less. */
  lemma StaleGoes(b: Buffers, gen: nat)
    requires b.hand != [] && b.hand[0].gen != gen
    ensures Outdated(Held(b.(hand := b.hand[1..])), gen) < Outdated(Held(b), gen)
  {
    var before, e, rest := b.rows + (b.retry + b.keep), b.hand[0], b.hand[1..] + b.queue;
    assert b.hand == [e] + b.hand[1..];
    assert Held(b) == before + ([e] + rest);
    assert Held(b.(hand := b.hand[1..])) == before + rest;
    OutdatedJoin(before, [e] + rest, gen);
    OutdatedJoin(before, rest, gen);
    OutdatedJoin([e], rest, gen);
  }

  lemma SiftStaleAdvances(s: State, f: Frame)
    requires LoopOk(s.k.w, s.b, f.gen) && s.k.w.pc.Sift? && s.b.hand != [] && s.b.hand[0].gen != f.gen
    ensures Advances(s.k.w, s.b, SiftStale(s).k.w, SiftStale(s).b, f)
  {
    StaleGoes(s.b, f.gen);
  }

  lemma SiftAdvances(s: State, ok: bool, fault: FetchFault, f: Frame)
    requires LoopOk(s.k.w, s.b, f.gen) && s.k.w.pc.Sift?
    requires s.b.hand != [] ==> s.b.hand[0].payload.serializes
    ensures Advances(s.k.w, s.b, MovingNext(s, ok, fault).k.w, MovingNext(s, ok, fault).b, f)
  {
    if s.b.hand != [] && s.b.hand[0].gen != s.k.w.gen {
      SiftStaleAdvances(s, f);
    } else {
      if s.b.hand != [] { SiftedHeld(s.b); }
      var s' := MovingNext(s, ok, fault);
      MoveAdvances(s.k.w, s.b, s'.k.w, s'.b, f);
    }
  }

  lemma StoredAdvances(s: State, f: Frame)
    requires LoopOk(s.k.w, s.b, f.gen) && s.k.w.pc.Insert?
    requires Held(Stored(s).b) == Held(s.b) && Stored(s).b.rows == s.b.rows + s.b.keep
    ensures Advances(s.k.w, s.b, Stored(s).k.w, Stored(s).b, f)
  {
    MoveAdvances(s.k.w, s.b, Stored(s).k.w, Stored(s).b, f);
  }

  lemma NotStoredAdvances(s: State, f: Frame)
    requires LoopOk(s.k.w, s.b, f.gen) && s.k.w.pc.Insert?
    ensures Advances(s.k.w, s.b, FailedAt(s, StorageError, Hold).w, s.b, f)
  {
    MoveAdvances(s.k.w, s.b, FailedAt(s, StorageError, Hold).w, s.b, f);
  }

  lemma InsertAdvances(s: State, ok: bool, fault: FetchFault, f: Frame)
    requires Order(s) && LoopOk(s.k.w, s.b, f.gen) && s.k.w.pc.Insert?
    ensures Advances(s.k.w, s.b, MovingNext(s, ok, fault).k.w, MovingNext(s, ok, fault).b, f)
  {
    if ok {
      OrderStored(s);
      StoredAdvances(s, f);
    } else {
      NotStoredAdvances(s, f);
    }
  }

  lemma HoldAdvances(s: State, f: Frame)
    requires LoopOk(s.k.w, s.b, f.gen) && s.k.w.pc.Hold? && s.b.retry == []
    ensures Advances(s.k.w, s.b, HoldForRetry(s).k.w, HoldForRetry(s).b, f)
  {
    HeldBackLine(s.b);
    MoveAdvances(s.k.w, s.b, HoldForRetry(s).k.w, HoldForRetry(s).b, f);
  }

  lemma FetchedAdvances(s: State, r: FetchResult, n: nat, f: Frame)
    requires LoopOk(s.k.w, s.b, f.gen) && s.k.w.pc.Fetch?
    ensures Advances(s.k.w, s.b, Fetched(s, r, n).k.w, s.b, f)
  {
    RankDrops(s.k.w, Fetched(s, r, n).k.w, s.b, f);
  }

  lemma {:induction false} NoneUnusable(es: seq<Event>)
    requires forall e :: e in es ==> e.payload.parses
    ensures Unusable(es) == [] && Usable(es) == es
  {
    if es != [] {
      assert es[0] in es;
      NoneUnusable(es[1..]);
    }
  }

  lemma FetchAdvances(s: State, ok: bool, fault: FetchFault, f: Frame)
    requires Order(s) && LoopOk(s.k.w, s.b, f.gen) && s.k.w.pc.Fetch?
    requires forall e :: e in s.b.rows ==> e.payload.parses
    ensures Advances(s.k.w, s.b, MovingNext(s, ok, fault).k.w, MovingNext(s, ok, fault).b, f)
  {
    LineParts(s.b);
    FetchOldest(s.b.rows, s.cfg.batch, fault);
    OrderedAlready(s.b.rows);
    var r, n := FetchPending(s.b.rows, s.cfg.batch, fault), Scanned(s.b.rows, s.cfg.batch, fault);
    NoneUnusable(s.b.rows[..n]);
    assert r.quarantined == 0;
    FetchedAdvances(s, r, n, f);
    assert MovingNext(s, ok, fault) == Fetched(s, r, n);
  }

  /** A failed write or acknowledgment ends the delivery. */
  lemma GivesUpAdvances(s: State, code: Code, f: Frame)
    requires LoopOk(s.k.w, s.b, f.gen) && (s.k.w.pc.Writing? || s.k.w.pc.Ack?)
    ensures Advances(s.k.w, s.b, FailedAt(s, code, AfterDeliver).w, s.b, f)
  {
    RankDrops(s.k.w, FailedAt(s, code, AfterDeliver).w, s.b, f);
  }

  lemma WrittenAdvances(s: State, f: Frame)
    requires LoopOk(s.k.w, s.b, f.gen) && s.k.w.pc.Writing?
    ensures Advances(s.k.w, s.b, Written(s).k.w, s.b, f)
  {
    RankDrops(s.k.w, Written(s).k.w, s.b, f);
  }

  /** Acknowledging the oldest rows takes one at or below the barrier, if any remain. */
  lemma AckCounts(b: Buffers, n: nat, barrier: nat)
    requires Ascending(Held(b)) && 1 <= n <= |b.rows|
    ensures var rest := b.(rows := b.rows[n..]);
            Remaining(rest, barrier) <= Remaining(b, barrier)
            && (Remaining(b, barrier) > 0 ==> Remaining(rest, barrier) < Remaining(b, barrier))
  {
    var rest := b.(rows := b.rows[n..]);
    assert b.rows == b.rows[..n] + b.rows[n..];
    assert Held(b) == b.rows[..n] + Held(rest);
    CountJoin(b.rows[..n], Held(rest), barrier);
    if Remaining(b, barrier) > 0 {
      CountUpToZero(Held(b), barrier);
      var e :| e in Held(b) && e.ordinal <= barrier;
      assert Held(b)[0] == b.rows[0] && b.rows[0].ordinal <= e.ordinal;
      assert b.rows[0] in b.rows[..n];
      CountUpToZero(b.rows[..n], barrier);
    }
  }

  lemma AckOutdates(b: Buffers, n: nat, gen: nat)
    requires n <= |b.rows|
    ensures Outdated(Held(b.(rows := b.rows[n..])), gen) <= Outdated(Held(b), gen)
  {
    var rest := b.(rows := b.rows[n..]);
    assert b.rows == b.rows[..n] + b.rows[n..];
    assert Held(b) == b.rows[..n] + Held(rest);
    OutdatedJoin(b.rows[..n], Held(rest), gen);
  }

  lemma AckedAdvances(s: State, n: nat, f: Frame)
    requires LoopOk(s.k.w, s.b, f.gen) && s.k.w.pc.Ack? && Ascending(Held(s.b)) && 1 <= n <= |s.b.rows|
    requires Without(s.b.rows, IdSet(s.k.w.batch)) == s.b.rows[n..]
    ensures Advances(s.k.w, s.b, Acknowledged(s).k.w, Acknowledged(s).b, f)
  {
    AckCounts(s.b, n, s.k.w.pass.barrier);
    AckOutdates(s.b, n, f.gen);
  }

  lemma AckAdvances(s: State, ok: bool, fault: FetchFault, f: Frame)
    requires Order(s) && LoopOk(s.k.w, s.b, f.gen) && s.k.w.pc.Ack?
    requires forall e :: e in s.b.rows ==> e.payload.parses
    ensures Advances(s.k.w, s.b, MovingNext(s, ok, fault).k.w, MovingNext(s, ok, fault).b, f)
  {
    AckAllOrNone(s);
    if ok && s.b.rows != [] {
      var n := s.k.w.scanned;
      NoneUnusable(s.b.rows[..n]);
      assert Unusable(s.b.rows[..n]) + s.b.rows[n..] == s.b.rows[n..];
      AckedAdvances(s, n, f);
    } else {
      GivesUpAdvances(s, StorageError, f);
    }
  }

  lemma MovingAdvances(s: State, ok: bool, fault: FetchFault, f: Frame)
    requires Order(s) && LoopOk(s.k.w, s.b, f.gen) && Moves(s.k.w.pc) && |Held(s.b)| <= f.limit
    requires forall e :: e in Held(s.b) ==> e.payload.serializes && e.payload.parses
    ensures Advances(s.k.w, s.b, MovingNext(s, ok, fault).k.w, MovingNext(s, ok, fault).b, f)
  {
    HeldAll(s.b);
    match s.k.w.pc
    case Pop => DrainAdvances(s, f);
    case TakeRetry => TakeRetryAdvances(s, ok, fault, f);
    case Sift => SiftAdvances(s, ok, fault, f);
    case Insert => InsertAdvances(s, ok, fault, f);
    case Hold => HoldAdvances(s, f);
    case Fetch => FetchAdvances(s, ok, fault, f);
    case Writing => if ok { WrittenAdvances(s, f); } else { GivesUpAdvances(s, SinkError, f); }
    case Ack => AckAdvances(s, ok, fault, f);
  }
}
