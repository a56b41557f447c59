/**
  * One event alone in the pipeline: where it is at each of the worker's program points, and how
  * every turn of the worker, when nothing goes wrong, takes it one place further.
  */
module PipelineSingle {
  import opened Events
  import opened StoreSpec
  import opened Pipeline
  import opened PipelineDrain

  const NONE := Buffers([], [], [], [], [])

  // ---- places ----

  predicate One(es: seq<Event>) {
    |es| == 1 && es[0].gen == 0 && es[0].payload == MARKER_PAYLOAD
  }

  predicate Empty(b: Buffers, out: nat) {
    b == NONE && out == 0
  }

  predicate InQueue(b: Buffers, out: nat) {
    One(b.queue) && b == NONE.(queue := b.queue) && out == 1
  }

  predicate InHand(b: Buffers, out: nat) {
    One(b.hand) && b == NONE.(hand := b.hand) && out == 1
  }

  predicate InKeep(b: Buffers, out: nat) {
    One(b.keep) && b == NONE.(keep := b.keep) && out == 1
  }

  predicate InRows(b: Buffers, out: nat) {
    One(b.rows) && b == NONE.(rows := b.rows) && out == 1
  }

  /** Where the event is when the worker is at its program point. */
  predicate Place(w: Worker, b: Buffers, out: nat) {
    match w.pc
    case CheckQueue => Empty(b, out) || (InQueue(b, out) && b.queue[0].ordinal <= w.pass.barrier)
    case CheckRetry => Empty(b, out)
    case CheckStore => Empty(b, out)
    case DrainSize => Empty(b, out) || InQueue(b, out)
    case Pop => Empty(b, out) || InQueue(b, out)
    case TakeRetry => InHand(b, out)
    case LatchGen => InHand(b, out)
    case ReadConsent => InHand(b, out) && w.gen == 0
    case Sift => (InHand(b, out) || InKeep(b, out)) && w.gen == 0
    case BoundaryConsent => InKeep(b, out) && w.gen == 0
    case BoundaryGen => InKeep(b, out) && w.gen == 0
    case Insert => InKeep(b, out)
    case DeliverConsent => InRows(b, out) || Empty(b, out)
    case Fetch => InRows(b, out) || Empty(b, out)
    case LatchDeliveryGen => InRows(b, out) && w.batch == b.rows
    case PreWriteConsent => InRows(b, out) && w.batch == b.rows && w.gen == 0
    case StartWrite => InRows(b, out) && w.batch == b.rows && w.gen == 0
    case Writing => InRows(b, out) && w.batch == b.rows && w.gen == 0
    case RecheckConsent => InRows(b, out) && w.batch == b.rows && w.gen == 0
    case RecheckGen => InRows(b, out) && w.batch == b.rows && w.gen == 0
    case Ack => InRows(b, out) && w.batch == b.rows
    case SettleAck => b == NONE && out == 1 && w.settle == 1
    case AfterDeliver => Empty(b, out)
    case _ => false
  }

  /** The client serves callers, with consent granted since it opened. */
  predicate Serving(s: State) {
    && s.up && ValidConfig(s.cfg) && !s.run.died
    && s.cl.consent == Granted && s.cl.gen == 0 && s.cl.c.pc.ConsentIdle? && !s.cl.purgeRequired
    && s.k.life.state == Running && !s.k.life.terminated
  }

  // ---- the worker takes the event further ----

  /** The worker and what it holds after a step within an iteration. */
  predicate Further(k: Control, k': Control, b': Buffers) {
    && Place(k'.w, b', k'.outstanding) && k'.life == k.life && k'.flush.table == k.flush.table
    && k'.w.pass == k.w.pass.(moved := k'.w.pass.moved, delivered := k'.w.pass.delivered)
    && (k.w.pass.moved || k.w.pc.Pop? ==> k'.w.pass.moved)
  }

  lemma ReadsOn(s: State)
    requires Place(s.k.w, s.b, s.k.outstanding) && Reads(s.k.w.pc) && s.cl.consent == Granted && s.cl.gen == 0
    ensures Further(s.k, QuietNext(s, true), s.b) && Rank(QuietNext(s, true).w.pc) < Rank(s.k.w.pc)
  {
    match s.k.w.pc
    case LatchGen =>
    case ReadConsent =>
    case BoundaryConsent =>
    case BoundaryGen =>
    case DeliverConsent =>
    case LatchDeliveryGen =>
    case PreWriteConsent =>
    case StartWrite =>
    case RecheckConsent =>
    case RecheckGen =>
  }

  lemma Settles(s: State)
    requires s.k.w.pc.SettleAck? && Place(s.k.w, s.b, s.k.outstanding)
    ensures Further(s.k, QuietNext(s, true), s.b)
  {}

  lemma Pops(s: State)
    requires s.k.w.pc.Pop? && InQueue(s.b, s.k.outstanding) && s.cfg.batch >= 1
    ensures Further(s.k, Drain(s).k, Drain(s).b) && Drain(s).b.hand == s.b.queue
  {
    assert s.b.queue[..1] == s.b.queue && s.b.queue[1..] == [];
  }

  lemma Joins(s: State)
    requires s.k.w.pc.TakeRetry? && InHand(s.b, s.k.outstanding)
    ensures var s' := MovingNext(s, true, NO_FAULT); Further(s.k, s'.k, s'.b) && s'.k.w.pc.LatchGen?
  {
    assert s.b.retry + s.b.hand == s.b.hand;
    assert MovingNext(s, true, NO_FAULT) == JoinRetry(s);
  }

  lemma Sifts(s: State)
    requires s.k.w.pc.Sift? && Place(s.k.w, s.b, s.k.outstanding)
    ensures var s' := MovingNext(s, true, NO_FAULT);
            && Further(s.k, s'.k, s'.b)
            && (if s.b.hand == [] then s'.k.w.pc.BoundaryConsent? else s'.k.w.pc.Sift? && s'.b.hand == [])
  {
    if s.b.hand != [] {
      assert s.b.hand[1..] == [] && [] + [s.b.hand[0]] == s.b.hand;
      assert MovingNext(s, true, NO_FAULT) == SiftKeep(s);
    }
  }

  lemma Stores(s: State)
    requires s.k.w.pc.Insert? && InKeep(s.b, s.k.outstanding)
    ensures Further(s.k, Stored(s).k, Stored(s).b) && Stored(s).b.rows == s.b.keep
  {
    var e := s.b.keep[0];
    assert s.b.keep == [e] && [e][1..] == [] && InsertIgnore([], [e]) == [e];
  }

  lemma FetchOne(e: Event, limit: nat)
    requires e.payload.parses && limit >= 1
    ensures FetchPending([e], limit, NO_FAULT) == FetchResult([e], [e], 0, Ok)
  {
    assert [e][..0] == [];
    assert OrderByOrdinal([e]) == [e];
    assert [e][..1] == [e] && [e][1..] == [];
    assert Usable([e]) == [e] + Usable([]);
    assert Unusable([e]) == Unusable([]) == [];
  }

  lemma FetchNone(limit: nat)
    ensures FetchPending([], limit, NO_FAULT) == FetchResult([], [], 0, Ok)
  {
    assert OrderByOrdinal([]) == [];
  }

  lemma Fetches(s: State)
    requires s.k.w.pc.Fetch? && Place(s.k.w, s.b, s.k.outstanding) && s.cfg.batch >= 1
    ensures var s' := MovingNext(s, true, NO_FAULT);
            && Further(s.k, s'.k, s'.b)
            && (if s.b.rows == [] then s'.k.w.pc.AfterDeliver? else s'.k.w.pc.LatchDeliveryGen?)
  {
    if s.b.rows == [] {
      FetchNone(s.cfg.batch);
    } else {
      assert s.b.rows == [s.b.rows[0]];
      FetchOne(s.b.rows[0], s.cfg.batch);
    }
    var f, n := FetchPending(s.b.rows, s.cfg.batch, NO_FAULT), Scanned(s.b.rows, s.cfg.batch, NO_FAULT);
    assert MovingNext(s, true, NO_FAULT) == Fetched(s, f, n);
  }

  lemma Writes(s: State)
    requires s.k.w.pc.Writing? && Place(s.k.w, s.b, s.k.outstanding)
    ensures Further(s.k, Written(s).k, Written(s).b)
  {}

  lemma AcksOn(s: State)
    requires s.k.w.pc.Ack? && Place(s.k.w, s.b, s.k.outstanding)
    ensures var s' := MovingNext(s, true, NO_FAULT); Further(s.k, s'.k, s'.b)
  {
    var e := s.b.rows[0];
    assert s.b.rows == [e];
    assert e in [e] && e.id in IdSet([e]) && [e][1..] == [];
    assert Removed([e], [e]) == [e] + Removed([e], []);
    assert Without([e], IdSet([e])) == Without([], IdSet([e])) == [];
    assert MovingNext(s, true, NO_FAULT) == Acknowledged(s);
  }

  lemma MovesOn(s: State)
    requires Place(s.k.w, s.b, s.k.outstanding) && Moves(s.k.w.pc) && s.cfg.batch >= 1
    requires s.k.w.pc.Pop? ==> s.b.queue != []
    ensures var s' := MovingNext(s, true, NO_FAULT); Further(s.k, s'.k, s'.b)
  {
    match s.k.w.pc
    case Pop => Pops(s);
    case TakeRetry => Joins(s);
    case Sift => Sifts(s);
    case Insert => Stores(s);
    case Fetch => Fetches(s);
    case Writing => Writes(s);
    case Ack => AcksOn(s);
  }
}
