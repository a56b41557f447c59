/**
  * The flush pass: an Ok on record for a token means that nothing with an ordinal up to the
  * one captured at its submission is held anywhere, then and ever after in that run.
  */
module PipelineFlush {
  import opened Events
  import opened StoreSpec
  import opened FlushTable
  import opened Pipeline
  import opened PipelineFlow
  import opened PipelineOrder
  import opened PipelineTokens
  import opened PipelineConsent

  /** Nothing in `es` is at or below `barrier`. */
  predicate Clear(es: seq<Event>, barrier: nat) {
    forall e :: e in es ==> e.ordinal > barrier
  }

  /** Barriers cover every submission and no ordinal that is still to be published. */
  predicate BarrierOk(f: Flush, published: nat) {
    f.barrier <= published && forall i :: 0 <= i < |f.captured| ==> f.captured[i] <= f.barrier
  }

  /** The pass has read its barrier. */
  predicate Loaded(pc: WorkerPc, pass: Pass) {
    || pass.draining || pc.CheckQueue? || pc.CheckRetry? || pc.CheckStore? || pc.DrainSize?
    || pc.FlushSink? || pc.TakeOutcome? || pc.RecordOutcome?
  }

  predicate PassBarrierOk(pc: WorkerPc, pass: Pass, f: Flush) {
    Loaded(pc, pass) ==>
      && pass.barrier <= f.barrier
      && forall i :: 0 <= i < |f.captured| && i < pass.want ==> f.captured[i] <= pass.barrier
  }

  /** How far the check for remaining work has got. */
  predicate CheckOk(pc: WorkerPc, pass: Pass, b: Buffers) {
    && (pc.CheckRetry? || pc.CheckStore? ==> Clear(b.queue, pass.barrier))
    && (pc.CheckStore? ==> Clear(b.retry, pass.barrier))
    && (pc.RecordOutcome? && pass.outcome == Ok ==> Clear(Held(b), pass.barrier))
  }

  predicate OkMeansClear(f: Flush, held: seq<Event>) {
    forall i :: 0 <= i < |f.captured| && i + 1 in f.recorded && f.recorded[i + 1] == Ok
            ==> Clear(held, f.captured[i])
  }

  predicate FlushInv(s: State) {
    s.up ==>
      && BarrierOk(s.k.flush, Published(s.cl))
      && PassBarrierOk(s.k.w.pc, s.k.w.pass, s.k.flush)
      && CheckOk(s.k.w.pc, s.k.w.pass, s.b)
      && OkMeansClear(s.k.flush, Held(s.b))
  }

  // ---- events only leave, or arrive above the barrier ----

  /** What `s'` holds, `s` held or was about to publish. */
  predicate HeldFrom(s: State, s': State) {
    forall e :: e in Held(s'.b) ==> e in Held(s.b) || e in s.cl.p.pend
  }

  lemma MovingHeldFetch(s: State, ok: bool, fault: FetchFault)
    requires Order(s) && s.k.w.pc.Fetch?
    ensures HeldFrom(s, MovingNext(s, ok, fault))
  {
    LineParts(s.b);
    FetchOldest(s.b.rows, s.cfg.batch, fault);
    RowsPart(s.b.rows, Scanned(s.b.rows, s.cfg.batch, fault));
    var s' := MovingNext(s, ok, fault);
    assert forall e :: e in s'.b.rows ==> e in s.b.rows;
    assert s'.b == s.b.(rows := s'.b.rows);
  }

  lemma MovingHeldAck(s: State, ok: bool, fault: FetchFault)
    requires Order(s) && s.k.w.pc.Ack?
    ensures HeldFrom(s, MovingNext(s, ok, fault))
  {
    WithoutMembers(s.b.rows, IdSet(s.k.w.batch));
    var s' := MovingNext(s, ok, fault);
    assert forall e :: e in s'.b.rows ==> e in s.b.rows;
    assert s'.b == s.b.(rows := s'.b.rows);
  }

  lemma MovingHeldSift(s: State, ok: bool, fault: FetchFault)
    requires s.k.w.pc.Sift?
    ensures HeldFrom(s, MovingNext(s, ok, fault))
  {
    if s.b.hand != [] { SiftedHeld(s.b); }
  }

  lemma SiftedHeld(b: Buffers)
    requires b.hand != []
    ensures Held(b.(hand := b.hand[1..], keep := b.keep + [b.hand[0]])) == Held(b)
    ensures forall e :: e in Held(b.(hand := b.hand[1..])) ==> e in Held(b)
  {
    assert b.hand == [b.hand[0]] + b.hand[1..];
  }

  /** Draining, joining, inserting and holding back leave the line as it is. */
  lemma MovingHeldSame(s: State, ok: bool, fault: FetchFault)
    requires Order(s) && (s.k.w.pc.Pop? || s.k.w.pc.TakeRetry? || s.k.w.pc.Insert? || s.k.w.pc.Hold?)
    ensures Held(MovingNext(s, ok, fault).b) == Held(s.b)
  {
    match s.k.w.pc
    case Pop => DrainedLine(s.b, Min(s.cfg.batch, |s.b.queue|));
    case TakeRetry => JoinedLine(s.b);
    case Insert => OrderStored(s);
    case Hold => HeldBackLine(s.b);
  }

  lemma DrainedLine(b: Buffers, n: nat)
    requires n <= |b.queue| && b.hand == []
    ensures Held(b.(queue := b.queue[n..], hand := b.queue[..n])) == Held(b)
  {
    assert b.queue == b.queue[..n] + b.queue[n..];
  }

  lemma JoinedLine(b: Buffers)
    requires b.keep == []
    ensures Held(b.(retry := [], hand := b.retry + b.hand)) == Held(b)
  {}

  lemma HeldBackLine(b: Buffers)
    requires b.retry == []
    ensures Held(b.(retry := b.keep + b.retry, keep := [])) == Held(b)
  {}

  /** The worker keeps the line or shortens it. */
  predicate Shortens(b: Buffers, b': Buffers) {
    Held(b') == Held(b) || |Held(b')| < |Held(b)|
  }

  lemma AckShortens(s: State, ok: bool, fault: FetchFault)
    requires Order(s) && s.k.w.pc.Ack?
    ensures var b := MovingNext(s, ok, fault).b; b == s.b || |Held(b)| < |Held(s.b)|
  {
    WithoutShortens(s.b.rows, IdSet(s.k.w.batch));
  }

  lemma {:induction false} WithoutShortens(es: seq<Event>, ids: set<nat>)
    ensures Without(es, ids) == es || |Without(es, ids)| < |es|
  {
    if es != [] { WithoutShortens(es[1..], ids); }
  }

  lemma FetchShortens(s: State, ok: bool, fault: FetchFault)
    requires Order(s) && s.k.w.pc.Fetch?
    ensures Shortens(s.b, MovingNext(s, ok, fault).b)
  {
    LineParts(s.b);
    FetchOldest(s.b.rows, s.cfg.batch, fault);
    var f, n := FetchPending(s.b.rows, s.cfg.batch, fault), Scanned(s.b.rows, s.cfg.batch, fault);
    if f.quarantined > 0 {
      assert MovingNext(s, ok, fault) == FetchedAndQuarantined(s, f);
    } else {
      assert MovingNext(s, ok, fault) == Fetched(s, f, n);
    }
  }

  lemma SiftShortens(s: State, ok: bool, fault: FetchFault)
    requires s.k.w.pc.Sift?
    ensures Shortens(s.b, MovingNext(s, ok, fault).b)
  {
    if s.b.hand != [] { SiftedHeld(s.b); }
  }

  lemma MovingShortens(s: State, ok: bool, fault: FetchFault)
    requires Order(s) && Moves(s.k.w.pc)
    ensures Shortens(s.b, MovingNext(s, ok, fault).b)
  {
    match s.k.w.pc
    case Pop => DrainedLine(s.b, Min(s.cfg.batch, |s.b.queue|));
    case TakeRetry => JoinedLine(s.b);
    case DiscardBatch =>
    case Sift => SiftShortens(s, ok, fault);
    case Insert => if ok { OrderStored(s); }
    case DiscardKeep =>
    case Hold => HeldBackLine(s.b);
    case Fetch => FetchShortens(s, ok, fault);
    case Writing =>
    case Ack => AckShortens(s, ok, fault);
    case PurgeStore =>
  }

  lemma MovingHeldDrop(s: State, ok: bool, fault: FetchFault)
    requires s.k.w.pc.DiscardBatch? || s.k.w.pc.DiscardKeep? || s.k.w.pc.PurgeStore? || s.k.w.pc.Writing?
    ensures HeldFrom(s, MovingNext(s, ok, fault))
  {}

  lemma MovingHeld(s: State, ok: bool, fault: FetchFault)
    requires Order(s) && Moves(s.k.w.pc)
    ensures HeldFrom(s, MovingNext(s, ok, fault))
  {
    var pc := s.k.w.pc;
    if pc.Fetch? { MovingHeldFetch(s, ok, fault); }
    else if pc.Ack? { MovingHeldAck(s, ok, fault); }
    else if pc.Sift? { MovingHeldSift(s, ok, fault); }
    else if pc.Pop? || pc.TakeRetry? || pc.Insert? || pc.Hold? { MovingHeldSame(s, ok, fault); }
    else { MovingHeldDrop(s, ok, fault); }
  }

  lemma ClearFrom(s: State, s': State, barrier: nat)
    requires HeldFrom(s, s') && Clear(Held(s.b), barrier) && Clear(s.cl.p.pend, barrier)
    ensures Clear(Held(s'.b), barrier)
  {}

  /** The event about to be published is above every barrier. */
  lemma PendAbove(s: State)
    requires Order(s) && BarrierOk(s.k.flush, Published(s.cl))
    ensures Clear(s.cl.p.pend, s.k.flush.barrier)
  {}

  lemma OkSame(f: Flush, f': Flush, held: seq<Event>)
    requires OkMeansClear(f, held) && SameTokens(f, f')
    ensures OkMeansClear(f', held)
  {}

  lemma OkStaysClear(s: State, s': State)
    requires Order(s) && s.up && FlushInv(s) && HeldFrom(s, s')
    requires SameTokens(s.k.flush, s'.k.flush)
    ensures OkMeansClear(s'.k.flush, Held(s'.b))
  {
    PendAbove(s);
    var f := s.k.flush;
    forall i | 0 <= i < |f.captured| && i + 1 in f.recorded && f.recorded[i + 1] == Ok
      ensures Clear(Held(s'.b), f.captured[i])
    {
      ClearFrom(s, s', f.captured[i]);
    }
  }

  // ---- the worker ----

  lemma FlushMoving(s: State, ok: bool, fault: FetchFault)
    requires Order(s) && FlushInv(s) && s.up && Moves(s.k.w.pc)
    ensures FlushInv(MovingNext(s, ok, fault))
  {
    MovingHeld(s, ok, fault);
    MovingCallers(s, ok, fault);
    MovingFlow(s, ok, fault);
    MovingFlush(s, ok, fault);
    MovingPass(s, ok, fault);
    FlushMoved(s, MovingNext(s, ok, fault));
  }

  /** A step outside the check that takes events, and keeps the pass's barrier. */
  lemma FlushMoved(s: State, s': State)
    requires Order(s) && FlushInv(s) && s.up && HeldFrom(s, s') && SameTokens(s.k.flush, s'.k.flush)
    requires s'.k.flush.barrier == s.k.flush.barrier && s'.cl == s.cl
    requires Moves(s.k.w.pc) && Follows(s.k.w.pc, s'.k.w.pc)
    requires s'.k.w.pass.barrier == s.k.w.pass.barrier && s'.k.w.pass.want == s.k.w.pass.want
    requires s'.k.w.pass.draining == s.k.w.pass.draining
    ensures FlushInv(s')
  {
    OkStaysClear(s, s');
  }

  lemma FrontClear(es: seq<Event>, barrier: nat)
    requires Ascending(es) && (es == [] || es[0].ordinal > barrier)
    ensures Clear(es, barrier)
  {}

  lemma CheckedQueue(s: State)
    requires Order(s) && s.k.w.pc.CheckQueue?
    ensures CheckOk(TestedQueue(s).w.pc, TestedQueue(s).w.pass, s.b)
  {
    LineParts(s.b);
    if s.k.w.pass.barrier == 0 { ClearAtZero(s); }
    else if !QueueRemains(s) { FrontClear(s.b.queue, s.k.w.pass.barrier); }
  }

  /** Ordinals start at one. */
  lemma ClearAtZero(s: State)
    requires Order(s)
    ensures Clear(Held(s.b), 0)
  {}

  lemma CheckedRetry(s: State)
    requires Order(s) && CheckOk(s.k.w.pc, s.k.w.pass, s.b) && s.k.w.pc.CheckRetry?
    ensures CheckOk(TestedRetry(s).w.pc, TestedRetry(s).w.pass, s.b)
  {
    LineParts(s.b);
    if !RetryRemains(s) { FrontClear(s.b.retry, s.k.w.pass.barrier); }
  }

  lemma ClearHeld(b: Buffers, barrier: nat)
    requires Clear(b.queue, barrier) && Clear(b.retry, barrier) && CountUpTo(b.rows, barrier) == 0
    requires b.keep == [] && b.hand == []
    ensures Clear(Held(b), barrier)
  {
    CountUpToZero(b.rows, barrier);
  }

  lemma CheckedStore(s: State, counts: bool)
    requires Order(s) && CheckOk(s.k.w.pc, s.k.w.pass, s.b) && s.k.w.pc.CheckStore?
    ensures CheckOk(TestedStore(s, counts).w.pc, TestedStore(s, counts).w.pass, s.b)
  {
    if !StoreRemains(s, counts) { ClearHeld(s.b, s.k.w.pass.barrier); }
  }

  lemma CheckQuiet(s: State, ok: bool)
    requires Order(s) && CheckOk(s.k.w.pc, s.k.w.pass, s.b) && !Moves(s.k.w.pc)
    ensures CheckOk(QuietNext(s, ok).w.pc, QuietNext(s, ok).w.pass, s.b)
  {
    match s.k.w.pc
    case CheckQueue => CheckedQueue(s);
    case CheckRetry => CheckedRetry(s);
    case CheckStore => CheckedStore(s, ok);
    case _ => QuietFlow(s, ok);
  }

  /** The barrier a pass has read covers the tokens it will answer. */
  lemma PassBarrierQuiet(s: State, ok: bool)
    requires Tokens(s) && s.up && FlushInv(s) && !Moves(s.k.w.pc)
    ensures PassBarrierOk(QuietNext(s, ok).w.pc, QuietNext(s, ok).w.pass, s.k.flush)
  {
    QuietFlow(s, ok);
  }

  /** Recording Ok is justified by the check. */
  lemma OkRecorded(s: State)
    requires Tokens(s) && s.up && FlushInv(s) && s.k.w.pc.RecordOutcome?
    ensures OkMeansClear(Recorded(s).flush, Held(s.b))
  {
    var f, f', pass := s.k.flush, Recorded(s).flush, s.k.w.pass;
    forall i | 0 <= i < |f'.captured| && i + 1 in f'.recorded && f'.recorded[i + 1] == Ok
      ensures Clear(Held(s.b), f'.captured[i])
    {
      if pass.handled < i + 1 <= pass.want {
        assert f.captured[i] <= pass.barrier;
      }
    }
  }

  lemma OkRefused(s: State)
    requires FlushInv(s) && s.up && s.k.w.pc.Exiting?
    ensures OkMeansClear(Finished(s).flush, Held(s.b))
  {}

  lemma OkUnrecorded(s: State, ok: bool)
    requires s.up && FlushInv(s) && !Moves(s.k.w.pc) && !s.k.w.pc.RecordOutcome? && !s.k.w.pc.Exiting?
    ensures OkMeansClear(QuietNext(s, ok).flush, Held(s.b))
  {
    QuietFlush(s, ok);
    OkSame(s.k.flush, QuietNext(s, ok).flush, Held(s.b));
  }

  lemma OkQuiet(s: State, ok: bool)
    requires Order(s) && Tokens(s) && s.up && FlushInv(s) && !Moves(s.k.w.pc)
    ensures OkMeansClear(QuietNext(s, ok).flush, Held(s.b))
  {
    match s.k.w.pc
    case RecordOutcome => OkRecorded(s);
    case Exiting => OkRefused(s);
    case _ => OkUnrecorded(s, ok);
  }

  lemma BarrierQuiet(s: State, ok: bool)
    requires !Moves(s.k.w.pc)
    ensures QuietNext(s, ok).flush.barrier == s.k.flush.barrier
    ensures QuietNext(s, ok).flush.captured == s.k.flush.captured
  {
    if !s.k.w.pc.RecordOutcome? && !s.k.w.pc.Exiting? { QuietFlush(s, ok); }
  }

  lemma FlushQuiet(s: State, ok: bool)
    requires Order(s) && Tokens(s) && FlushInv(s) && s.up && !Moves(s.k.w.pc)
    ensures FlushInv(s.(k := QuietNext(s, ok)))
  {
    CheckQuiet(s, ok);
    PassBarrierQuiet(s, ok);
    OkQuiet(s, ok);
    BarrierQuiet(s, ok);
  }

  // ---- other threads ----

  lemma PublishedGrows(s: State)
    requires Pending(s.cl, |s.log.admitted|)
    ensures Published(s.cl) <= Published(ProducerNext(s).cl)
  {}

  /** Other threads take from the queue and the retry buffer, or push above the barrier. */
  predicate BuffersFrom(s: State, s': State) {
    && HeldFrom(s, s')
    && (forall e :: e in s'.b.queue ==> e in s.b.queue || e in s.cl.p.pend)
    && (forall e :: e in s'.b.retry ==> e in s.b.retry)
  }

  lemma FlushOthers(s: State, s': State)
    requires Order(s) && FlushInv(s) && s.up && s'.k.w == s.k.w && BuffersFrom(s, s')
    requires SameTokens(s.k.flush, s'.k.flush)
    requires s.k.flush.barrier <= s'.k.flush.barrier <= Published(s'.cl)
    ensures FlushInv(s')
  {
    PendAbove(s);
    OkStaysClear(s, s');
    if s.k.w.pc.RecordOutcome? && s.k.w.pass.outcome == Ok { ClearFrom(s, s', s.k.w.pass.barrier); }
  }

  lemma ConsentBuffers(s: State, ok: bool)
    ensures BuffersFrom(s, ConsentNext(s, ok))
  {}

  lemma ConsentPublished(s: State, ok: bool)
    ensures Published(ConsentNext(s, ok).cl) == Published(s.cl)
  {}

  lemma ProducerBuffers(s: State)
    ensures BuffersFrom(s, ProducerNext(s))
  {
    HeldPushed(s.b, s.cl.p.pend);
  }

  lemma FlushIssued(s: State, ordinal: nat)
    requires Order(s) && Tokens(s) && FlushInv(s) && s.up && ordinal <= s.k.flush.barrier
    ensures FlushInv(TokenIssued(s, ordinal))
  {}

  lemma FlushDied(s: State)
    requires Order(s) && FlushInv(s) && s.up
    ensures FlushInv(WorkerDied(s))
  {
    assert HeldFrom(s, WorkerDied(s));
    OkStaysClear(s, s.(b := WorkerDied(s).b));
  }

  /** Steps that touch neither buffers nor ordinals. */
  lemma FlushCalling(s: State, s': State)
    requires FlushInv(s) && s'.up == s.up && s'.b == s.b && s'.k.w == s.k.w
    requires SameTokens(s.k.flush, s'.k.flush) && s'.k.flush.barrier == s.k.flush.barrier
    requires Published(s'.cl) == Published(s.cl)
    ensures FlushInv(s')
  {}

  lemma FlushConsent(s: State, ok: bool)
    requires Order(s) && FlushInv(s) && s.up
    ensures FlushInv(ConsentNext(s, ok))
  {
    OthersFlush(s, Consenting(ok));
    ConsentBuffers(s, ok);
    ConsentPublished(s, ok);
    ConsentBarrier(s, ok);
    FlushOthers(s, ConsentNext(s, ok));
  }

  lemma ConsentBarrier(s: State, ok: bool)
    ensures ConsentNext(s, ok).k.flush.barrier == s.k.flush.barrier
  {}

  lemma FlushProducer(s: State)
    requires Order(s) && FlushInv(s) && s.up
    ensures FlushInv(ProducerNext(s))
  {
    OthersFlush(s, Producing);
    ProducerBuffers(s);
    PublishedGrows(s);
    FlushOthers(s, ProducerNext(s));
  }

  lemma FlushOther(s: State, step: Step)
    requires Order(s) && FlushInv(s) && s.up
    requires !step.Work? && !step.Dies? && !step.IssueToken? && !step.RaiseBarrier? && !step.Consenting?
             && !step.Producing? && !step.Crash?
    ensures FlushInv(NextUp(s, step))
  {
    OthersFlush(s, step);
    FlushCalling(s, NextUp(s, step));
  }

  lemma FlushUp(s: State, step: Step)
    requires Order(s) && Tokens(s) && FlushInv(s) && s.up
    ensures FlushInv(NextUp(s, step))
  {
    match step
    case Work(ok, fault) =>
      if Moves(s.k.w.pc) { FlushMoving(s, ok, fault); } else { FlushQuiet(s, ok); }
    case Dies => FlushDied(s);
    case IssueToken(o) => if o <= s.k.flush.barrier { FlushIssued(s, o); }
    case RaiseBarrier(o) => if o <= Published(s.cl) { FlushOthers(s, BarrierRaised(s, o)); }
    case Consenting(ok) => FlushConsent(s, ok);
    case Producing => FlushProducer(s);
    case Crash =>
    case _ => FlushOther(s, step);
  }

  lemma FlushOpened(s: State, step: Step)
    requires !s.up
    ensures FlushInv(Next(s, step))
  {}

  lemma {:induction false} FlushAlways(cfg: Config, steps: seq<Step>)
    requires ValidConfig(cfg)
    ensures FlushInv(Exec(Init(cfg), steps))
  {
    if steps != [] {
      var front := steps[..|steps| - 1];
      FlushAlways(cfg, front);
      OrderAlways(cfg, front);
      TokensAlways(cfg, front);
      var s := Exec(Init(cfg), front);
      if s.up { FlushUp(s, steps[|steps| - 1]); } else { FlushOpened(s, steps[|steps| - 1]); }
    }
  }

  /** If the answer to a token is Ok, no event with an ordinal at or below the one captured at
      its submission is in the queue, the retry buffer, the worker's hands or the store. */
  lemma FlushOkMeansDrained(s: State, token: nat)
    requires Reachable(s) && s.up && 1 <= token <= s.k.flush.table.issued
    requires Answer(s.k.flush.table, token) == Ok
    ensures token <= |s.k.flush.captured| && Clear(Held(s.b), s.k.flush.captured[token - 1])
  {
    TokensAnswerForThemselves(s, token);
    var cfg, steps := ReachedBy(s);
    FlushAlways(cfg, steps);
    TokensAlways(cfg, steps);
    assert token - 1 + 1 in s.k.flush.recorded;
  }
}
