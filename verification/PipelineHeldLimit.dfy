/**
  * How much can be held at all, through any number of revocations and grants: the limit, or what
  * the run recovered, and twice what the queue and one batch hold. Whatever resets or late
  * releases take from the counter, the events they miss were then in the queue or in one batch.
  */
module PipelineHeldLimit {
  import opened Events
  import opened StoreSpec
  import opened Pipeline
  import opened PipelineFlow
  import opened PipelineOrder
  import opened PipelineConsent
  import opened PipelineLedger
  import opened PipelineCapacity
  import opened PipelineFlush

  // ---- counting ----

  /** Events of `es` admitted at or after `boundary`. */
  function Fresh(es: seq<Event>, boundary: nat): nat {
    if es == [] then 0 else Fresh(es[1..], boundary) + if es[0].id >= boundary then 1 else 0
  }

  lemma {:induction false} FreshJoin(a: seq<Event>, b: seq<Event>, boundary: nat)
    ensures Fresh(a + b, boundary) == Fresh(a, boundary) + Fresh(b, boundary)
  {
    if a == [] {
      assert a + b == b;
    } else {
      assert (a + b)[1..] == a[1..] + b;
      FreshJoin(a[1..], b, boundary);
    }
  }

  lemma {:induction false} FreshAtMost(es: seq<Event>, boundary: nat)
    ensures Fresh(es, boundary) <= |es|
  {
    if es != [] { FreshAtMost(es[1..], boundary); }
  }

  lemma {:induction false} FreshNone(es: seq<Event>, boundary: nat)
    requires AllBelow(es, boundary)
    ensures Fresh(es, boundary) == 0
  {
    if es != [] {
      assert es[0] in es;
      FreshNone(es[1..], boundary);
    }
  }

  lemma {:induction false} FreshAll(es: seq<Event>, boundary: nat)
    requires forall e :: e in es ==> e.id >= boundary
    ensures Fresh(es, boundary) == |es|
  {
    if es != [] {
      assert es[0] in es;
      FreshAll(es[1..], boundary);
    }
  }

  lemma FreshHeld(b: Buffers, boundary: nat)
    ensures Fresh(Held(b), boundary)
            == Fresh(b.rows, boundary) + Fresh(b.retry, boundary) + Fresh(b.keep, boundary)
               + Fresh(b.hand, boundary) + Fresh(b.queue, boundary)
  {
    FreshJoin(b.rows, b.retry + (b.keep + (b.hand + b.queue)), boundary);
    FreshJoin(b.retry, b.keep + (b.hand + b.queue), boundary);
    FreshJoin(b.keep, b.hand + b.queue, boundary);
    FreshJoin(b.hand, b.queue, boundary);
  }

  // ---- what holds ----

  /** What a queue and a batch hold. */
  function Span(cfg: Config): nat {
    cfg.queueCap + cfg.batch
  }

  /** What the counter may reach. */
  function Most(cfg: Config, run: Run): nat {
    Max(cfg.cap, run.recovered)
  }

  predicate Fits(s: State) {
    |s.b.queue| + |s.cl.p.pend| <= s.cfg.queueCap && s.k.outstanding <= Most(s.cfg, s.run)
  }

  /** A batch is a batch. */
  predicate Small(w: Worker, batch: nat) {
    |w.batch| <= batch && w.settle <= batch
  }

  /** Of the events since the latest revocation the counter misses no more than a queue and a
      batch. */
  predicate Slack(s: State) {
    Fresh(Held(s.b), s.run.boundary) + |s.cl.p.pend| + s.k.w.settle <= s.k.outstanding + Span(s.cfg)
  }

  predicate Uniform(es: seq<Event>) {
    forall i :: 0 <= i < |es| ==> es[i].gen == es[0].gen
  }

  /** All but the last `batch` events are of one generation. */
  predicate NearlyUniform(es: seq<Event>, batch: nat) {
    forall i :: 0 <= i < |es| - batch ==> es[i].gen == es[0].gen
  }

  predicate Shaped(pc: WorkerPc, b: Buffers, batch: nat) {
    Uniform(b.retry) && NearlyUniform(b.hand, batch) && (pc.TakeRetry? ==> |b.hand| <= batch)
  }

  /** A worker that purges, or whose reading of the generation is outdated, holds nothing of the
      current generation. */
  predicate Behind(w: Worker, b: Buffers, boundary: nat) {
    && (w.pc.PurgeStore? || w.pc.PurgeReset? ==> AllBelow(b.retry, boundary) && AllBelow(b.rows, boundary))
    && (LatchedDelivery(w.pc) ==> forall e :: e in b.retry ==> e.gen <= w.gen)
  }

  /** The worker's own events: of one generation, but for a batch. */
  predicate Stocked(w: Worker, b: Buffers, gen: nat, most: nat, batch: nat) {
    && |b.retry| <= most && |b.keep| + |b.hand| <= most + batch
    && (w.pc.Insert? || w.pc.Hold? || (w.pc.BoundaryGen? && w.gen == gen) ==> |b.keep| <= most)
  }

  function MostOfOne(s: State): nat {
    Most(s.cfg, s.run) + Span(s.cfg)
  }

  predicate Limited(s: State) {
    |Held(s.b)| <= Most(s.cfg, s.run) + 2 * Span(s.cfg)
  }

  predicate HeldOk(s: State) {
    s.up && !s.run.died ==>
      && Fits(s) && Small(s.k.w, s.cfg.batch) && Slack(s) && Shaped(s.k.w.pc, s.b, s.cfg.batch)
      && Behind(s.k.w, s.b, s.run.boundary)
      && Stocked(s.k.w, s.b, s.cl.gen, MostOfOne(s), s.cfg.batch) && Limited(s)
  }

  // ---- slack ----

  /** Without consent nothing is fresh. */
  lemma SlackOff(s: State)
    requires Order(s) && ConsentInv(s) && s.up && s.cl.consent != Granted && Small(s.k.w, s.cfg.batch)
    ensures Slack(s)
  {
    AllCondemned(s);
    FreshNone(Held(s.b), s.run.boundary);
  }

  function Sum(s: State): nat {
    Fresh(Held(s.b), s.run.boundary) + |s.cl.p.pend| + s.k.w.settle
  }

  /** What is released was fresh. */
  lemma SlackReleased(s: State, s': State, n: nat)
    requires Slack(s) && s'.k.outstanding == Release(s.k.outstanding, n) && Sum(s') + n <= Sum(s) && s'.cfg == s.cfg
    ensures Slack(s')
  {}

  lemma SlackSame(s: State, s': State)
    requires Slack(s) && Held(s'.b) == Held(s.b) && s'.run.boundary == s.run.boundary && s'.cl.p.pend == s.cl.p.pend
    requires s'.k.w.settle == s.k.w.settle && s'.k.outstanding == s.k.outstanding && s'.cfg == s.cfg
    ensures Slack(s')
  {}

  /** A stale event in front: behind it, only a batch and the queue can be fresh. */
  lemma StaleFront(s: State)
    requires Order(s) && ConsentInv(s) && s.up && s.cl.consent == Granted && s.k.w.pc.Sift? && s.b.hand != []
    requires s.b.hand[0].id < s.run.boundary && Shaped(s.k.w.pc, s.b, s.cfg.batch)
    ensures Fresh(Held(s.b.(hand := s.b.hand[1..])), s.run.boundary) <= s.cfg.batch + |s.b.queue|
  {
    var b, boundary := s.b, s.run.boundary;
    var rest := b.hand[1..];
    LineParts(b);
    HeldAll(b);
    assert AllBelow(b.rows, boundary) && AllBelow(b.keep, boundary);
    FreshHeld(b.(hand := rest), boundary);
    FreshNone(b.rows, boundary);
    FreshNone(b.keep, boundary);
    FreshAtMost(b.queue, boundary);
    FreshBehind(s, rest);
  }

  lemma FreshBehind(s: State, rest: seq<Event>)
    requires Order(s) && ConsentInv(s) && s.up && s.b.hand != [] && rest == s.b.hand[1..]
    requires s.b.hand[0].id < s.run.boundary && NearlyUniform(s.b.hand, s.cfg.batch)
    ensures Fresh(rest, s.run.boundary) <= s.cfg.batch
  {
    var n := if |rest| > s.cfg.batch then |rest| - s.cfg.batch else 0;
    HeldAll(s.b);
    assert s.b.hand[0] in Held(s.b);
    forall i | 0 <= i < n ensures rest[..n][i].id < s.run.boundary {
      assert s.b.hand[i + 1].gen == s.b.hand[0].gen;
      assert s.b.hand[i + 1] in Held(s.b);
    }
    FreshNone(rest[..n], s.run.boundary);
    FreshAtMost(rest[n..], s.run.boundary);
    assert rest == rest[..n] + rest[n..];
    FreshJoin(rest[..n], rest[n..], s.run.boundary);
  }

  predicate Live(s: State) {
    Order(s) && ConsentInv(s) && Tallied(s.k.w, s.cl.c) && s.up && s.cl.consent == Granted && Slack(s) && Fits(s)
  }

  lemma SlackBound(s: State)
    requires Sum(s) <= Span(s.cfg)
    ensures Slack(s)
  {}

  lemma SlackStaleGone(s: State, s': State)
    requires Live(s) && s.k.w.pc.Sift? && s.b.hand != [] && s.b.hand[0].id < s.run.boundary
    requires Shaped(s.k.w.pc, s.b, s.cfg.batch)
    requires s'.b == s.b.(hand := s.b.hand[1..]) && s'.run == s.run && s'.cfg == s.cfg && s'.cl == s.cl
    requires s'.k.w.settle == s.k.w.settle
    ensures Slack(s')
  {
    StaleFront(s);
    SlackBound(s');
  }

  lemma FreshFirst(b: Buffers, boundary: nat)
    requires b.hand != [] && b.hand[0].id >= boundary
    ensures Fresh(Held(b.(hand := b.hand[1..])), boundary) + 1 == Fresh(Held(b), boundary)
  {
    FreshHeld(b, boundary);
    FreshHeld(b.(hand := b.hand[1..]), boundary);
  }

  lemma SlackSift(s: State, ok: bool, fault: FetchFault)
    requires Live(s) && s.k.w.pc.Sift? && Shaped(s.k.w.pc, s.b, s.cfg.batch)
    ensures Slack(MovingNext(s, ok, fault))
  {
    var s' := MovingNext(s, ok, fault);
    if s.b.hand == [] {
      SlackSame(s, s');
    } else {
      var e := s.b.hand[0];
      HeldAll(s.b);
      assert e in s.b.hand;
      if e.gen != s.k.w.gen {
        OldIsCondemned(s, e);
        SlackStaleGone(s, SiftStale(s));
      } else if e.payload.serializes {
        SiftedHeld(s.b);
        SlackSame(s, SiftKeep(s));
      } else if e.id < s.run.boundary {
        SlackStaleGone(s, SiftInvalid(s));
      } else {
        FreshFirst(s.b, s.run.boundary);
        SlackReleased(s, SiftInvalid(s), 1);
      }
    }
  }

  /** Only the queue holds fresh events. */
  lemma OnlyQueueFresh(b: Buffers, boundary: nat)
    requires AllBelow(b.rows, boundary) && AllBelow(b.retry, boundary) && AllBelow(b.keep, boundary)
    requires AllBelow(b.hand, boundary)
    ensures Fresh(Held(b), boundary) <= |b.queue|
  {
    FreshHeld(b, boundary);
    FreshNone(b.rows, boundary);
    FreshNone(b.retry, boundary);
    FreshNone(b.keep, boundary);
    FreshNone(b.hand, boundary);
    FreshAtMost(b.queue, boundary);
  }

  lemma SlackDropIncoming(s: State)
    requires Live(s) && s.k.w.pc.DiscardBatch?
    ensures Slack(DropIncoming(s))
  {
    OnlyQueueFresh(DropIncoming(s).b, s.run.boundary);
    SlackBound(DropIncoming(s));
  }

  lemma SlackDropKept(s: State)
    requires Live(s) && s.k.w.pc.DiscardKeep?
    ensures Slack(DropKept(s))
  {
    if s.b.keep == [] {
      SlackSame(s, DropKept(s));
    } else {
      LineParts(s.b);
      assert s.b.keep[0] in s.b.keep;
      OnlyQueueFresh(DropKept(s).b, s.run.boundary);
      SlackBound(DropKept(s));
    }
  }

  lemma FreshRows(b: Buffers, rows: seq<Event>, boundary: nat)
    requires (forall e :: e in b.rows ==> e.id >= boundary) && (forall e :: e in rows ==> e.id >= boundary)
    requires |rows| <= |b.rows|
    ensures Fresh(Held(b.(rows := rows)), boundary) + (|b.rows| - |rows|) == Fresh(Held(b), boundary)
  {
    FreshHeld(b, boundary);
    FreshHeld(b.(rows := rows), boundary);
    FreshAll(b.rows, boundary);
    FreshAll(rows, boundary);
  }

  lemma SlackQuarantined(s: State, f: FetchResult)
    requires Slack(s) && s.k.w.settle == 0 && f.quarantined + |f.rows| == |s.b.rows|
    requires forall e :: e in s.b.rows ==> e.id >= s.run.boundary
    requires forall e :: e in f.rows ==> e.id >= s.run.boundary
    ensures Slack(FetchedAndQuarantined(s, f))
  {
    FreshRows(s.b, f.rows, s.run.boundary);
    SlackReleased(s, FetchedAndQuarantined(s, f), 0);
  }

  lemma FetchedRows(rows: seq<Event>, limit: nat, fault: FetchFault)
    requires Ascending(rows)
    ensures forall e :: e in FetchPending(rows, limit, fault).rows ==> e in rows
    ensures var f := FetchPending(rows, limit, fault); f.quarantined + |f.rows| == |rows|
  {
    FetchOldest(rows, limit, fault);
    RowsPart(rows, Scanned(rows, limit, fault));
  }

  lemma SlackFetch(s: State, ok: bool, fault: FetchFault)
    requires Live(s) && s.k.w.pc.Fetch?
    ensures Slack(MovingNext(s, ok, fault))
  {
    LineParts(s.b);
    FetchedRows(s.b.rows, s.cfg.batch, fault);
    var f, n := FetchPending(s.b.rows, s.cfg.batch, fault), Scanned(s.b.rows, s.cfg.batch, fault);
    if f.quarantined > 0 {
      SlackQuarantined(s, f);
      assert MovingNext(s, ok, fault) == FetchedAndQuarantined(s, f);
    } else {
      SlackSame(s, Fetched(s, f, n));
      assert MovingNext(s, ok, fault) == Fetched(s, f, n);
    }
  }

  lemma SlackAck(s: State, ok: bool, fault: FetchFault)
    requires Live(s) && s.k.w.pc.Ack?
    ensures Slack(MovingNext(s, ok, fault))
  {
    AckSizes(s);
    var s', rows := MovingNext(s, ok, fault), Without(s.b.rows, IdSet(s.k.w.batch));
    if !ok || |Removed(s.b.rows, s.k.w.batch)| != |s.k.w.batch| {
      SlackSame(s, s');
    } else {
      WithoutMembers(s.b.rows, IdSet(s.k.w.batch));
      FreshRows(s.b, rows, s.run.boundary);
      SlackReleased(s, Acknowledged(s), 0);
    }
  }

  lemma SlackPurge(s: State, ok: bool, fault: FetchFault)
    requires Live(s) && s.k.w.pc.PurgeStore?
    ensures Slack(MovingNext(s, ok, fault))
  {
    if ok {
      FreshHeld(s.b, s.run.boundary);
      FreshHeld(Purged(s).b, s.run.boundary);
      SlackReleased(s, Purged(s), 0);
    } else {
      SlackSame(s, PurgeFailed(s));
    }
  }

  lemma SlackInsert(s: State, ok: bool, fault: FetchFault)
    requires Live(s) && s.k.w.pc.Insert?
    ensures Slack(MovingNext(s, ok, fault))
  {
    if ok {
      OrderStored(s);
      SlackSame(s, Stored(s));
    } else {
      SlackSame(s, s.(k := FailedAt(s, StorageError, Hold)));
    }
  }

  lemma SlackLine(s: State, ok: bool, fault: FetchFault)
    requires Live(s) && (s.k.w.pc.Pop? || s.k.w.pc.TakeRetry? || s.k.w.pc.Hold? || s.k.w.pc.Writing?)
    ensures Slack(MovingNext(s, ok, fault))
  {
    match s.k.w.pc
    case Pop =>
      DrainedLine(s.b, Min(s.cfg.batch, |s.b.queue|));
      SlackSame(s, Drain(s));
    case TakeRetry =>
      JoinedLine(s.b);
      SlackSame(s, MovingNext(s, ok, fault));
    case Hold =>
      HeldBackLine(s.b);
      SlackSame(s, HoldForRetry(s));
    case Writing => SlackSame(s, MovingNext(s, ok, fault));
  }

  lemma SlackMoving(s: State, ok: bool, fault: FetchFault)
    requires Live(s) && Shaped(s.k.w.pc, s.b, s.cfg.batch) && Moves(s.k.w.pc)
    ensures Slack(MovingNext(s, ok, fault))
  {
    match s.k.w.pc
    case Sift => SlackSift(s, ok, fault);
    case DiscardBatch => SlackDropIncoming(s);
    case DiscardKeep => SlackDropKept(s);
    case Fetch => SlackFetch(s, ok, fault);
    case Ack => SlackAck(s, ok, fault);
    case PurgeStore => SlackPurge(s, ok, fault);
    case Insert => SlackInsert(s, ok, fault);
    case _ => SlackLine(s, ok, fault);
  }

  lemma SlackQuiet(s: State, ok: bool)
    requires Live(s) && !Moves(s.k.w.pc) && Behind(s.k.w, s.b, s.run.boundary)
    ensures Slack(s.(k := QuietNext(s, ok)))
  {
    var s' := s.(k := QuietNext(s, ok));
    if s.k.w.pc.PurgeReset? {
      OnlyQueueFresh(s.b, s.run.boundary);
      SlackBound(s');
    } else if s.k.w.pc.SettleAck? || s.k.w.pc.SettleQuarantine? {
      SlackReleased(s, s', s.k.w.settle);
    } else {
      QuietCounts(s, ok);
      SlackSame(s, s');
    }
  }

  lemma QuietCounts(s: State, ok: bool)
    requires !Moves(s.k.w.pc) && !s.k.w.pc.PurgeReset? && !s.k.w.pc.SettleAck? && !s.k.w.pc.SettleQuarantine?
    ensures QuietNext(s, ok).outstanding == s.k.outstanding && QuietNext(s, ok).w.settle == s.k.w.settle
  {}

  lemma SlackCounted(s: State)
    requires Pending(s.cl, |s.log.admitted|) && Slack(s) && ProducerNext(s).b == s.b
    ensures Slack(ProducerNext(s))
  {
    ProducerSpares(s);
    ProducerBalance(s);
  }

  lemma ProducerBalance(s: State)
    requires Pending(s.cl, |s.log.admitted|) && ProducerNext(s).b == s.b
    ensures var s' := ProducerNext(s);
            || (|s'.cl.p.pend| == |s.cl.p.pend| && s'.k.outstanding == s.k.outstanding)
            || (|s'.cl.p.pend| == |s.cl.p.pend| + 1 && s'.k.outstanding == s.k.outstanding + 1)
            || (|s'.cl.p.pend| + 1 == |s.cl.p.pend| && s'.k.outstanding == Release(s.k.outstanding, 1))
  {}

  /** A producer's event is fresh. */
  lemma SlackPushed(s: State, s': State)
    requires Slack(s) && forall e :: e in s.cl.p.pend ==> e.id >= s.run.boundary
    requires s'.b == s.b.(queue := s.b.queue + s.cl.p.pend) && s'.cl.p.pend == [] && s'.cfg == s.cfg
    requires s'.run == s.run && s'.k.outstanding == s.k.outstanding && s'.k.w == s.k.w
    ensures Slack(s')
  {
    HeldPushed(s.b, s.cl.p.pend);
    FreshJoin(Held(s.b), s.cl.p.pend, s.run.boundary);
    FreshAll(s.cl.p.pend, s.run.boundary);
  }

  lemma SlackProducer(s: State)
    requires Live(s)
    ensures Slack(ProducerNext(s))
  {
    ProducerSpares(s);
    ProducerPushes(s);
    if ProducerNext(s).b == s.b { SlackCounted(s); } else { SlackPushed(s, ProducerNext(s)); }
  }

  // ---- the worker's own events ----

  lemma RestUniform(es: seq<Event>, batch: nat)
    requires es != [] && NearlyUniform(es, batch)
    ensures NearlyUniform(es[1..], batch)
  {
    forall i | 0 <= i < |es[1..]| - batch ensures es[1..][i].gen == es[1..][0].gen {
      assert es[i + 1].gen == es[0].gen && es[1].gen == es[0].gen;
    }
  }

  lemma JoinUniform(a: seq<Event>, b: seq<Event>, batch: nat)
    requires Uniform(a) && |b| <= batch
    ensures NearlyUniform(a + b, batch)
  {}

  lemma ShapedTaken(s: State, ok: bool, fault: FetchFault)
    requires s.k.w.pc.TakeRetry? && Shaped(s.k.w.pc, s.b, s.cfg.batch)
    ensures var s' := MovingNext(s, ok, fault); Shaped(s'.k.w.pc, s'.b, s.cfg.batch)
  {
    JoinUniform(s.b.retry, s.b.hand, s.cfg.batch);
  }

  lemma ShapedSifted(s: State, ok: bool, fault: FetchFault)
    requires s.k.w.pc.Sift? && Shaped(s.k.w.pc, s.b, s.cfg.batch)
    ensures var s' := MovingNext(s, ok, fault); Shaped(s'.k.w.pc, s'.b, s.cfg.batch)
  {
    if s.b.hand != [] { RestUniform(s.b.hand, s.cfg.batch); }
  }

  lemma ShapedHeldBack(s: State)
    requires s.k.w.pc.Hold? && s.b.retry == [] && s.b.hand == []
    requires forall e :: e in s.b.keep ==> e.gen == s.k.w.gen
    ensures Shaped(HoldForRetry(s).k.w.pc, HoldForRetry(s).b, s.cfg.batch)
  {
    assert HoldForRetry(s).b.retry == s.b.keep;
  }

  lemma ShapedMoving(s: State, ok: bool, fault: FetchFault)
    requires Order(s) && ConsentInv(s) && Moves(s.k.w.pc) && Shaped(s.k.w.pc, s.b, s.cfg.batch)
    ensures var s' := MovingNext(s, ok, fault); Shaped(s'.k.w.pc, s'.b, s.cfg.batch)
  {
    match s.k.w.pc
    case TakeRetry => ShapedTaken(s, ok, fault);
    case Sift => ShapedSifted(s, ok, fault);
    case Hold => ShapedHeldBack(s);
    case Pop => assert MovingNext(s, ok, fault) == Drain(s);
    case _ => ShapedElse(s, ok, fault);
  }

  lemma ShapedElse(s: State, ok: bool, fault: FetchFault)
    requires Registers(s.k.w.pc, s.b) && Moves(s.k.w.pc) && Shaped(s.k.w.pc, s.b, s.cfg.batch)
    requires !s.k.w.pc.TakeRetry? && !s.k.w.pc.Sift? && !s.k.w.pc.Hold? && !s.k.w.pc.Pop?
    ensures var s' := MovingNext(s, ok, fault); Shaped(s'.k.w.pc, s'.b, s.cfg.batch)
  {}

  lemma StockedMoving(s: State, ok: bool, fault: FetchFault, most: nat)
    requires Order(s) && Moves(s.k.w.pc) && Shaped(s.k.w.pc, s.b, s.cfg.batch)
    requires Stocked(s.k.w, s.b, s.cl.gen, most, s.cfg.batch)
    ensures var s' := MovingNext(s, ok, fault); Stocked(s'.k.w, s'.b, s.cl.gen, most, s.cfg.batch)
  {
    MovingFlow(s, ok, fault);
    match s.k.w.pc
    case Pop =>
    case TakeRetry =>
    case Sift => if s.b.hand != [] { assert |s.b.hand[1..]| == |s.b.hand| - 1; }
    case Insert =>
    case Hold =>
    case _ => StockedElse(s, ok, fault, most);
  }

  lemma StockedElse(s: State, ok: bool, fault: FetchFault, most: nat)
    requires Moves(s.k.w.pc) && Stocked(s.k.w, s.b, s.cl.gen, most, s.cfg.batch)
    requires !s.k.w.pc.TakeRetry? && !s.k.w.pc.Sift? && !s.k.w.pc.Hold? && !s.k.w.pc.Pop? && !s.k.w.pc.Insert?
    ensures var s' := MovingNext(s, ok, fault); Stocked(s'.k.w, s'.b, s.cl.gen, most, s.cfg.batch)
  {
    MovingFlow(s, ok, fault);
  }

  lemma FetchSmall(rows: seq<Event>, limit: nat, fault: FetchFault)
    ensures var f := FetchPending(rows, limit, fault); |f.events| <= limit && f.quarantined <= limit
  {
    OrderByOrdinalLength(rows);
    UsableSplit(OrderByOrdinal(rows)[..Scanned(rows, limit, fault)]);
  }

  lemma SmallMoving(s: State, ok: bool, fault: FetchFault)
    requires Moves(s.k.w.pc) && Small(s.k.w, s.cfg.batch)
    ensures Small(MovingNext(s, ok, fault).k.w, s.cfg.batch)
  {
    if s.k.w.pc.Fetch? { FetchSmall(s.b.rows, s.cfg.batch, fault); }
  }

  lemma BehindDropped(s: State)
    requires Order(s) && ConsentInv(s) && s.k.w.pc.DiscardBatch?
    ensures Behind(DropIncoming(s).k.w, DropIncoming(s).b, s.run.boundary)
  {}

  lemma BehindElse(s: State, ok: bool, fault: FetchFault)
    requires Moves(s.k.w.pc) && !s.k.w.pc.DiscardBatch? && Behind(s.k.w, s.b, s.run.boundary)
    ensures var s' := MovingNext(s, ok, fault); Behind(s'.k.w, s'.b, s.run.boundary)
  {
    MovingFlow(s, ok, fault);
  }

  lemma BehindMoving(s: State, ok: bool, fault: FetchFault)
    requires Order(s) && ConsentInv(s) && Moves(s.k.w.pc) && Behind(s.k.w, s.b, s.run.boundary)
    ensures var s' := MovingNext(s, ok, fault); Behind(s'.k.w, s'.b, s.run.boundary)
  {
    if s.k.w.pc.DiscardBatch? { BehindDropped(s); } else { BehindElse(s, ok, fault); }
  }

  lemma SmallQuiet(s: State, ok: bool)
    requires !Moves(s.k.w.pc) && Small(s.k.w, s.cfg.batch)
    ensures Small(QuietNext(s, ok).w, s.cfg.batch)
  {
    QuietBatch(s, ok);
  }

  lemma ShapedQuiet(s: State, ok: bool)
    requires !Moves(s.k.w.pc) && Shaped(s.k.w.pc, s.b, s.cfg.batch)
    ensures Shaped(QuietNext(s, ok).w.pc, s.b, s.cfg.batch)
  {
    QuietFlow(s, ok);
  }

  /** The boundary check lets through only what is fresh, and so within the limit. */
  lemma KeptIsFresh(s: State)
    requires Order(s) && ConsentInv(s) && s.up && s.k.w.pc.BoundaryConsent? && s.cl.consent == Granted
    requires s.k.w.gen == s.cl.gen && Slack(s) && Fits(s)
    ensures |s.b.keep| <= MostOfOne(s)
  {
    HeldAll(s.b);
    FreshHeld(s.b, s.run.boundary);
    FreshAll(s.b.keep, s.run.boundary);
  }

  lemma StockedQuiet(s: State, ok: bool)
    requires Order(s) && ConsentInv(s) && s.up && !Moves(s.k.w.pc) && Slack(s) && Fits(s)
    requires Stocked(s.k.w, s.b, s.cl.gen, MostOfOne(s), s.cfg.batch)
    ensures Stocked(QuietNext(s, ok).w, s.b, s.cl.gen, MostOfOne(s), s.cfg.batch)
  {
    QuietFlow(s, ok);
    if s.k.w.pc.BoundaryConsent? && s.cl.consent == Granted && s.k.w.gen == s.cl.gen { KeptIsFresh(s); }
  }

  lemma BehindPurges(s: State, w: Worker)
    requires Order(s) && ConsentInv(s) && s.up && s.cl.consent != Granted
    requires w.pc.PurgeStore?
    ensures Behind(w, s.b, s.run.boundary)
  {
    AllCondemned(s);
    HeldAll(s.b);
  }

  lemma BehindRechecked(s: State)
    requires Order(s) && ConsentInv(s) && s.up && s.k.w.pc.RecheckGen? && Behind(s.k.w, s.b, s.run.boundary)
    ensures Behind(RecheckedGen(s).w, s.b, s.run.boundary)
  {
    HeldAll(s.b);
    if s.cl.gen != s.k.w.gen {
      forall e | e in s.b.retry || e in s.b.rows ensures e.id < s.run.boundary { OldIsCondemned(s, e); }
    }
  }

  lemma BehindLatched(s: State)
    requires Order(s) && ConsentInv(s) && s.up && s.k.w.pc.LatchDeliveryGen?
    ensures Behind(LatchDelivery(s).w, s.b, s.run.boundary)
  {
    GensAtMost(s);
    HeldAll(s.b);
  }

  lemma BehindQuiet(s: State, ok: bool)
    requires Order(s) && ConsentInv(s) && s.up && !Moves(s.k.w.pc) && Behind(s.k.w, s.b, s.run.boundary)
    ensures Behind(QuietNext(s, ok).w, s.b, s.run.boundary)
  {
    QuietFlow(s, ok);
    match s.k.w.pc
    case RecheckGen => BehindRechecked(s);
    case LatchDeliveryGen => BehindLatched(s);
    case DeliverConsent => if s.cl.consent != Granted { BehindPurges(s, QuietNext(s, ok).w); }
    case PreWriteConsent => if s.cl.consent != Granted { BehindPurges(s, QuietNext(s, ok).w); }
    case RecheckConsent => if s.cl.consent != Granted { BehindPurges(s, QuietNext(s, ok).w); }
    case _ => BehindUnread(s, ok);
  }

  lemma BehindUnread(s: State, ok: bool)
    requires !Moves(s.k.w.pc) && Behind(s.k.w, s.b, s.run.boundary)
    requires !s.k.w.pc.RecheckGen? && !s.k.w.pc.LatchDeliveryGen? && !s.k.w.pc.DeliverConsent?
    requires !s.k.w.pc.PreWriteConsent? && !s.k.w.pc.RecheckConsent?
    ensures Behind(QuietNext(s, ok).w, s.b, s.run.boundary)
  {
    QuietFlow(s, ok);
  }

  // ---- the limit ----

  lemma LimitedGranted(s: State)
    requires Order(s) && ConsentInv(s) && s.up && s.cl.consent == Granted
    requires Fits(s) && Slack(s) && Shaped(s.k.w.pc, s.b, s.cfg.batch)
    requires Stocked(s.k.w, s.b, s.cl.gen, MostOfOne(s), s.cfg.batch)
    ensures Limited(s)
  {
    if s.b.rows != [] {
      LineParts(s.b);
      assert s.b.rows[0] in s.b.rows;
      AllFresh(s);
      FreshAll(Held(s.b), s.run.boundary);
    }
  }

  lemma AllFresh(s: State)
    requires Order(s) && s.b.rows != [] && s.b.rows[0].id >= s.run.boundary
    ensures forall e :: e in Held(s.b) ==> e.id >= s.run.boundary
  {
    assert Held(s.b)[0] == s.b.rows[0];
  }

  // ---- every step, every run ----

  /** All but the limit itself. */
  predicate Kept(s: State) {
    && Fits(s) && Small(s.k.w, s.cfg.batch) && Slack(s) && Shaped(s.k.w.pc, s.b, s.cfg.batch)
    && Behind(s.k.w, s.b, s.run.boundary) && Stocked(s.k.w, s.b, s.cl.gen, MostOfOne(s), s.cfg.batch)
  }

  /** With consent the limit follows; without it nothing is added to what is held. */
  lemma LimitFollows(s: State, s': State)
    requires Order(s') && ConsentInv(s') && s'.up && Kept(s') && Limited(s)
    requires s'.cfg == s.cfg && s'.run.recovered == s.run.recovered
    requires s'.cl.consent != Granted ==> |Held(s'.b)| <= |Held(s.b)|
    ensures Limited(s')
  {
    if s'.cl.consent == Granted { LimitedGranted(s'); }
  }

  lemma SlackWork(s: State, ok: bool, fault: FetchFault)
    requires Order(s) && ConsentInv(s) && Tallied(s.k.w, s.cl.c) && s.up && Kept(s)
    requires s.cl.consent == Granted
    ensures Slack(WorkerNext(s, ok, fault))
  {
    if Moves(s.k.w.pc) { SlackMoving(s, ok, fault); } else { SlackQuiet(s, ok); }
  }

  lemma WorkKeeps(s: State, ok: bool, fault: FetchFault)
    requires Order(s) && ConsentInv(s) && s.up && Kept(s)
    ensures var s' := WorkerNext(s, ok, fault);
            && Fits(s') && Small(s'.k.w, s.cfg.batch) && Shaped(s'.k.w.pc, s'.b, s.cfg.batch)
            && Behind(s'.k.w, s'.b, s.run.boundary) && Stocked(s'.k.w, s'.b, s.cl.gen, MostOfOne(s), s.cfg.batch)
  {
    WorkerFrees(s, ok, fault);
    WorkSpares(s, ok, fault);
    if Moves(s.k.w.pc) {
      SmallMoving(s, ok, fault);
      ShapedMoving(s, ok, fault);
      BehindMoving(s, ok, fault);
      StockedMoving(s, ok, fault, MostOfOne(s));
    } else {
      SmallQuiet(s, ok);
      ShapedQuiet(s, ok);
      BehindQuiet(s, ok);
      StockedQuiet(s, ok);
    }
  }

  lemma WorkNeverGrows(s: State, ok: bool, fault: FetchFault)
    requires Order(s)
    ensures |Held(WorkerNext(s, ok, fault).b)| <= |Held(s.b)|
  {
    if Moves(s.k.w.pc) { MovingShortens(s, ok, fault); }
  }

  lemma HeldWork(s: State, ok: bool, fault: FetchFault)
    requires Order(s) && ConsentInv(s) && Tallied(s.k.w, s.cl.c) && s.up && Kept(s) && Limited(s)
    requires Order(WorkerNext(s, ok, fault)) && ConsentInv(WorkerNext(s, ok, fault))
    ensures Kept(WorkerNext(s, ok, fault)) && Limited(WorkerNext(s, ok, fault))
  {
    var s' := WorkerNext(s, ok, fault);
    WorkSpares(s, ok, fault);
    WorkKeeps(s, ok, fault);
    if s.cl.consent == Granted { SlackWork(s, ok, fault); } else { SlackOff(s'); }
    WorkNeverGrows(s, ok, fault);
    LimitFollows(s, s');
  }

  lemma ProducerFits(s: State)
    requires Fits(s)
    ensures Fits(ProducerNext(s))
  {
    ProducerCounts(s);
    ProducerKeepsBuffers(s);
    ProducerSpares(s);
  }

  lemma HeldProducer(s: State)
    requires Order(s) && ConsentInv(s) && Tallied(s.k.w, s.cl.c) && s.up && Kept(s) && Limited(s)
    requires Order(ProducerNext(s)) && ConsentInv(ProducerNext(s))
    ensures Kept(ProducerNext(s)) && Limited(ProducerNext(s))
  {
    var s' := ProducerNext(s);
    ProducerSpares(s);
    ProducerFits(s);
    ProducerKeepsBuffers(s);
    if s.cl.consent == Granted { SlackProducer(s); } else { SlackOff(s'); }
    LimitFollows(s, s');
  }

  /** What the consent caller and the other callers leave alone, or only lower. */
  predicate Lowers(s: State, s': State) {
    && s'.up && s'.cfg == s.cfg && s'.run.recovered == s.run.recovered && s'.k.w == s.k.w
    && s.run.boundary <= s'.run.boundary && s.cl.gen <= s'.cl.gen && s'.cl.p.pend == s.cl.p.pend
    && s'.k.outstanding <= s.k.outstanding && |Held(s'.b)| <= |Held(s.b)|
    && (s'.b.queue == s.b.queue || s'.b.queue == []) && (s'.b.retry == s.b.retry || s'.b.retry == [])
    && (s'.b.rows == s.b.rows || s'.b.rows == []) && s'.b.keep == s.b.keep && s'.b.hand == s.b.hand
    && (s'.cl.consent == Granted ==>
          s'.b == s.b && s'.k.outstanding == s.k.outstanding && s'.run.boundary == s.run.boundary)
  }

  lemma LowersKeeps(s: State, s': State)
    requires Order(s) && ConsentInv(s) && s.up && Kept(s) && Limited(s) && Lowers(s, s')
    requires Order(s') && ConsentInv(s')
    ensures Kept(s') && Limited(s')
  {
    if s'.cl.consent == Granted { SlackSame(s, s'); } else { SlackOff(s'); }
    LimitFollows(s, s');
  }

  lemma ConsentLowers(s: State, ok: bool)
    requires ConsentInv(s) && s.up
    ensures Lowers(s, ConsentNext(s, ok))
  {
    match s.cl.c.pc
    case ConsentIdle =>
    case Bump =>
    case ClearQueue =>
    case ReleaseQueue =>
    case DiscardRetry =>
    case ReleaseRetry =>
    case Mark =>
    case PurgeRows =>
    case ResetCount =>
    case SetGranted =>
  }

  lemma OthersLower(s: State, step: Step)
    requires ConsentInv(s) && s.up
    requires !step.Work? && !step.Producing? && !step.Consenting? && !step.Dies? && !step.Crash?
    ensures Lowers(s, NextUp(s, step))
  {
    if step.Revoke? {
      if step.target != Granted { RevokeLowers(s, step.target); }
    } else if step.Grant? {
      GrantLowers(s);
    } else {
      CallsLower(s, step);
    }
  }

  lemma CallsLower(s: State, step: Step)
    requires s.up && !step.Work? && !step.Producing? && !step.Consenting? && !step.Dies? && !step.Crash?
    requires !step.Revoke? && !step.Grant?
    ensures Lowers(s, NextUp(s, step))
  {}

  lemma RevokeLowers(s: State, target: Consent)
    requires ConsentInv(s) && s.up && target != Granted
    ensures Lowers(s, Revoked(s, target))
  {}

  lemma GrantLowers(s: State)
    requires s.up
    ensures Lowers(s, Granting(s))
  {}

  lemma OpenedKept(s: State, step: Step)
    requires NoMemory(s) && !s.up && ValidConfig(s.cfg) && Next(s, step).up
    ensures var s' := Next(s, step); Kept(s') && Limited(s')
  {
    var s' := Next(s, step);
    FreshAtMost(Held(s'.b), s'.run.boundary);
  }

  lemma HeldConsent(s: State, ok: bool)
    requires Order(s) && ConsentInv(s) && s.up && Kept(s) && Limited(s)
    requires Order(ConsentNext(s, ok)) && ConsentInv(ConsentNext(s, ok))
    ensures Kept(ConsentNext(s, ok)) && Limited(ConsentNext(s, ok))
  {
    ConsentLowers(s, ok);
    LowersKeeps(s, ConsentNext(s, ok));
  }

  lemma HeldOther(s: State, step: Step, s': State)
    requires Order(s) && ConsentInv(s) && s.up && Kept(s) && Limited(s) && s' == NextUp(s, step)
    requires !step.Work? && !step.Producing? && !step.Consenting? && !step.Dies? && !step.Crash?
    requires Order(s') && ConsentInv(s')
    ensures Kept(s') && Limited(s')
  {
    OthersLower(s, step);
    LowersKeeps(s, s');
  }

  lemma HeldUp(s: State, step: Step, s': State)
    requires Order(s) && ConsentInv(s) && Tallied(s.k.w, s.cl.c) && s.up && Kept(s) && Limited(s)
    requires s' == NextUp(s, step) && Order(s') && ConsentInv(s') && !step.Dies? && !step.Crash?
    ensures Kept(s') && Limited(s')
  {
    if step.Work? {
      assert s' == WorkerNext(s, step.ok, step.fault);
      HeldWork(s, step.ok, step.fault);
    } else if step.Producing? {
      assert s' == ProducerNext(s);
      HeldProducer(s);
    } else if step.Consenting? {
      assert s' == ConsentNext(s, step.ok);
      HeldConsent(s, step.ok);
    } else {
      HeldOther(s, step, s');
    }
  }

  lemma HeldStep(s: State, step: Step)
    requires Order(s) && ConsentInv(s) && CapacityOk(s) && NoMemory(s) && HeldOk(s)
    ensures HeldOk(Next(s, step))
  {
    var s' := Next(s, step);
    OrderStep(s, step);
    ConsentStep(s, step);
    if s'.up && !s.up {
      OpenedKept(s, step);
    } else if s'.up {
      DeathLasts(s, step, s');
      if !s'.run.died && !step.Dies? { HeldUp(s, step, s'); }
    }
  }

  lemma DeathLasts(s: State, step: Step, s': State)
    requires s.up && s' == Next(s, step) && s'.up
    ensures !step.Crash? && (s.run.died ==> s'.run.died) && (step.Dies? && !s'.run.died ==> s' == s)
  {
    if step.Work? { WorkSpares(s, step.ok, step.fault); }
    if step.Producing? { ProducerSpares(s); }
  }

  lemma {:induction false} HeldAlways(cfg: Config, steps: seq<Step>)
    requires ValidConfig(cfg)
    ensures HeldOk(Exec(Init(cfg), steps))
  {
    if steps != [] {
      var front := steps[..|steps| - 1];
      HeldAlways(cfg, front);
      ConsentAlways(cfg, front);
      CapacityAlways(cfg, front);
      AccountsAlways(cfg, front);
      HeldStep(Exec(Init(cfg), front), steps[|steps| - 1]);
    }
  }

  /** Through any revocations, grants and purges, as long as the worker lives, no more is held than
      the limit, or what the run recovered, and twice a queue and a batch. */
  lemma HeldIsLimited(s: State)
    requires Reachable(s) && s.up && !s.run.died
    ensures |Held(s.b)| <= Max(s.cfg.cap, s.run.recovered) + 2 * (s.cfg.queueCap + s.cfg.batch)
  {
    var cfg, steps := ReachedBy(s);
    HeldAlways(cfg, steps);
  }
}
