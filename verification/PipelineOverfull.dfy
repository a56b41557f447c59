/**
  * The limit on pending events is exceeded, by as much as the bound allows and for every
  * configuration: a purge under way at the first grant forgets what was admitted meanwhile, and
  * producers then fill the limit once more while inserts fail.
  */
module PipelineOverfull {
  import opened Events
  import opened StoreSpec
  import opened Pipeline
  import opened PipelineFlow
  import opened PipelineOrder
  import opened PipelineFlush
  import opened PipelinePrivacy
  import opened PipelineSingle
  import opened PipelineWitness

  predicate AllGood(es: seq<Event>) {
    forall e :: e in es ==> e.gen == 0 && e.payload == MARKER_PAYLOAD
  }

  /** A session is open, no producer under way, and consent was never revoked. */
  predicate Sendable(s: State) {
    Serving(s) && s.cl.p == PRODUCER0 && s.cl.session.active && !s.run.revoked
  }

  // ---- one more event ----

  /** A producer on its way to push an event onto what `r` holds. */
  predicate Sends(s: State, r: State, pc: ProducerPc) {
    && Serving(s) && s.cl.session.active && s.cfg == r.cfg && s.run == r.run && s.b == r.b
    && |r.b.queue| < r.cfg.queueCap && r.k.outstanding < r.cfg.cap
    && s.cl.p.pc == pc && s.cl.p.next == Return && s.cl.p.payload == MARKER_PAYLOAD
    && (if pc.Push? then |s.cl.p.pend| == 1 && AllGood(s.cl.p.pend) && s.k == r.k.(outstanding := r.k.outstanding + 1)
        else s.cl.p.pend == [] && s.k == r.k)
  }

  lemma SendTaken(s: State)
    requires Sendable(s) && |s.b.queue| < s.cfg.queueCap && s.k.outstanding < s.cfg.cap
    ensures Sends(Next(s, Track(0, MARKER_PAYLOAD)), s, Gate)
  {}

  lemma SendGated(s: State, r: State)
    requires Sends(s, r, Gate)
    ensures Sends(Next(s, Producing), r, Checks)
  {}

  lemma SendChecked(s: State, r: State)
    requires Sends(s, r, Checks)
    ensures Sends(Next(s, Producing), r, Push)
  {
    assert Next(s, Producing) == Counted(s);
  }

  /** `t` holds one event more than `r`, at the end of the queue. */
  predicate OneMore(r: State, t: State) {
    && |t.b.queue| == |r.b.queue| + 1 && t.b == r.b.(queue := t.b.queue) && t.cfg == r.cfg
    && (AllGood(r.b.queue) ==> AllGood(t.b.queue))
    && t.k == r.k.(outstanding := r.k.outstanding + 1, stats := t.k.stats)
  }

  lemma SendPushed(s: State, r: State)
    requires Sends(s, r, Push) && Sendable(r)
    ensures Sendable(Next(s, Producing)) && OneMore(r, Next(s, Producing))
  {
    assert Next(s, Producing) == Accepted(s);
  }

  lemma SendsOne(r: State) returns (t: State)
    requires Reachable(r) && Sendable(r) && |r.b.queue| < r.cfg.queueCap && r.k.outstanding < r.cfg.cap
    ensures Reachable(t) && Sendable(t) && OneMore(r, t)
  {
    SendTaken(r);
    StepReachable(r, Track(0, MARKER_PAYLOAD));
    t := Next(r, Track(0, MARKER_PAYLOAD));
    SendGated(t, r);
    StepReachable(t, Producing);
    t := Next(t, Producing);
    SendChecked(t, r);
    StepReachable(t, Producing);
    t := Next(t, Producing);
    SendPushed(t, r);
    StepReachable(t, Producing);
    t := Next(t, Producing);
  }

  // ---- the queue fills while the worker stands before the reset ----

  /** Only the queue holds events, and the counter is exact. */
  predicate Gathering(s: State) {
    && Sendable(s) && s.b == NONE.(queue := s.b.queue) && AllGood(s.b.queue) && s.k.outstanding == |s.b.queue|
    && s.k.w.pc.PurgeReset? && !s.k.w.fromProcess && s.k.w.settle == 0
    && s.k.flush.table.issued == 0 && !s.k.w.pass.pending && !s.k.w.pass.draining && !s.k.life.stop
  }

  lemma GathersOne(r: State, t: State)
    requires Gathering(r) && Sendable(t) && OneMore(r, t)
    ensures Gathering(t)
  {}

  lemma Gathers(begun: State, n: nat) returns (s: State)
    requires Reachable(begun) && Gathering(begun) && |begun.b.queue| <= n <= Min(begun.cfg.cap, begun.cfg.queueCap)
    ensures Reachable(s) && Gathering(s) && s.cfg == begun.cfg && |s.b.queue| == n
  {
    s := begun;
    while |s.b.queue| < n
      invariant Reachable(s) && Gathering(s) && s.cfg == begun.cfg && |s.b.queue| <= n
      decreases n - |s.b.queue|
    {
      var t := SendsOne(s);
      GathersOne(s, t);
      s := t;
    }
  }

  // ---- the worker makes room without storing anything ----

  /** How far the worker is from its next drain of the queue. */
  function Lap(pc: WorkerPc): nat {
    match pc
    case TakeRetry => 14
    case LatchGen => 13
    case ReadConsent => 12
    case Sift => 11
    case BoundaryConsent => 10
    case BoundaryGen => 9
    case Insert => 8
    case Hold => 7
    case DeliverConsent => 6
    case Fetch => 5
    case AfterDeliver => 4
    case LoopEnd => 3
    case Top => 2
    case Pop => 1
    case _ => 0
  }

  /** Nothing is stored, and nothing that is held would be dropped. */
  predicate Circling(w: Worker, b: Buffers, k: Control) {
    && Lap(w.pc) > 0 && w.settle == 0 && !w.pass.pending && !w.pass.draining && !k.life.stop
    && k.flush.table.issued == 0 && b.rows == []
    && AllGood(b.retry) && AllGood(b.keep) && AllGood(b.hand) && AllGood(b.queue)
    && (w.pc.ReadConsent? || w.pc.Sift? || w.pc.BoundaryConsent? || w.pc.BoundaryGen? ==> w.gen == 0)
  }

  /** The worker's turn, with every insert failing. */
  function FailingTurn(pc: WorkerPc): Step {
    Work(!pc.Insert?, NO_FAULT)
  }

  /** What a turn keeps. */
  predicate Circles(s: State, k': Control, b': Buffers) {
    && Circling(k'.w, b', k') && |Held(b')| == |Held(s.b)| && k'.outstanding == s.k.outstanding && k'.life == s.k.life
    && (if s.k.w.pc.Pop? then s.b.queue != [] ==> |b'.queue| < |s.b.queue|
        else b'.queue == s.b.queue
             && (Lap(k'.w.pc) < Lap(s.k.w.pc) || (k'.w.pc == s.k.w.pc && |b'.hand| < |s.b.hand|)))
  }

  lemma QuietCircles(s: State)
    requires Circling(s.k.w, s.b, s.k) && !Moves(s.k.w.pc) && s.cl.consent == Granted && s.cl.gen == 0
    ensures Circles(s, QuietNext(s, true), s.b)
  {}

  lemma PopCircles(s: State)
    requires Circling(s.k.w, s.b, s.k) && s.k.w.pc.Pop? && s.b.hand == [] && s.cfg.batch >= 1
    ensures Circles(s, Drain(s).k, Drain(s).b)
  {
    DrainedLine(s.b, Min(s.cfg.batch, |s.b.queue|));
  }

  lemma TakeCircles(s: State)
    requires Circling(s.k.w, s.b, s.k) && s.k.w.pc.TakeRetry? && s.b.keep == []
    ensures var s' := MovingNext(s, true, NO_FAULT); Circles(s, s'.k, s'.b)
  {
    JoinedLine(s.b);
  }

  lemma SiftCircles(s: State)
    requires Circling(s.k.w, s.b, s.k) && s.k.w.pc.Sift?
    ensures var s' := MovingNext(s, true, NO_FAULT); Circles(s, s'.k, s'.b)
  {
    if s.b.hand != [] {
      SiftedHeld(s.b);
      assert s.b.hand[0] in s.b.hand;
      assert MovingNext(s, true, NO_FAULT) == SiftKeep(s);
    }
  }

  lemma InsertCircles(s: State)
    requires Circling(s.k.w, s.b, s.k) && s.k.w.pc.Insert?
    ensures var s' := MovingNext(s, false, NO_FAULT); Circles(s, s'.k, s'.b)
  {}

  lemma HoldCircles(s: State)
    requires Circling(s.k.w, s.b, s.k) && s.k.w.pc.Hold? && s.b.retry == []
    ensures Circles(s, HoldForRetry(s).k, HoldForRetry(s).b)
  {
    HeldBackLine(s.b);
  }

  lemma FetchCircles(s: State)
    requires Circling(s.k.w, s.b, s.k) && s.k.w.pc.Fetch?
    ensures var s' := MovingNext(s, true, NO_FAULT); Circles(s, s'.k, s'.b)
  {
    FetchNone(s.cfg.batch);
    assert MovingNext(s, true, NO_FAULT) == Fetched(s, FetchResult([], [], 0, Ok), 0);
  }

  predicate Filling(s: State) {
    Sendable(s) && Circling(s.k.w, s.b, s.k)
  }

  lemma TurnCircles(s: State)
    requires Order(s) && Filling(s)
    ensures var s' := WorkerNext(s, !s.k.w.pc.Insert?, NO_FAULT); Circles(s, s'.k, s'.b)
  {
    match s.k.w.pc
    case Pop => PopCircles(s);
    case TakeRetry => TakeCircles(s);
    case Sift => SiftCircles(s);
    case Insert => InsertCircles(s);
    case Hold => HoldCircles(s);
    case Fetch => FetchCircles(s);
    case _ => QuietCircles(s);
  }

  /** As much is held and counted in `t` as in `s`. */
  predicate SameFill(s: State, t: State) {
    |Held(t.b)| == |Held(s.b)| && t.k.outstanding == s.k.outstanding && t.cfg == s.cfg
  }

  lemma {:induction false} MakesRoom(s: State) returns (t: State)
    requires Reachable(s) && Filling(s)
    ensures Reachable(t) && Filling(t) && SameFill(s, t) && |t.b.queue| < t.cfg.queueCap
    decreases |s.b.queue|, Lap(s.k.w.pc), |s.b.hand|
  {
    if |s.b.queue| < s.cfg.queueCap {
      t := s;
    } else {
      ReachableIsSound(s);
      TurnCircles(s);
      WorkSpares(s, !s.k.w.pc.Insert?, NO_FAULT);
      StepReachable(s, FailingTurn(s.k.w.pc));
      t := MakesRoom(Next(s, FailingTurn(s.k.w.pc)));
    }
  }

  lemma FillsOne(r: State, t: State)
    requires Filling(r) && Sendable(t) && OneMore(r, t)
    ensures Filling(t) && |Held(t.b)| == |Held(r.b)| + 1
  {}

  lemma Fills(start: State) returns (s: State)
    requires Reachable(start) && Filling(start) && start.k.outstanding <= start.cfg.cap
    ensures Reachable(s) && Filling(s) && s.cfg == start.cfg
    ensures |Held(s.b)| == |Held(start.b)| + (s.cfg.cap - start.k.outstanding)
  {
    s := start;
    while s.k.outstanding < s.cfg.cap
      invariant Reachable(s) && Filling(s) && s.cfg == start.cfg && s.k.outstanding <= s.cfg.cap
      invariant |Held(s.b)| == |Held(start.b)| + (s.k.outstanding - start.k.outstanding)
      decreases s.cfg.cap - s.k.outstanding
    {
      var roomy := MakesRoom(s);
      s := SendsOne(roomy);
      FillsOne(roomy, s);
    }
  }

  // ---- the run ----

  lemma BegunGathers(s: State, r: State)
    requires Begun(s, r.k) && s.run == r.run && !r.run.revoked
    requires r.k.w.pc.PurgeReset? && !r.k.w.fromProcess && r.k.w.settle == 0 && r.k.flush.table.issued == 0
    requires !r.k.w.pass.pending && !r.k.w.pass.draining && r.k.life == Life(Running, false, false)
    ensures Gathering(s) && |s.b.queue| == 1
  {}

  lemma ResetFills(s: State)
    requires Gathering(s)
    ensures var t := Next(s, WORK);
            Filling(t) && t.cfg == s.cfg && t.k.outstanding == 0 && |Held(t.b)| == |s.b.queue|
  {
    assert Next(s, WORK) == s.(k := CountReset(s));
  }

  /** For every configuration there is a run without revocation or death in which the limit is
      exceeded by all that the queue can take of it: the bound of `Conservation` is reached. */
  lemma LimitExceeded(cfg: Config) returns (s: State)
    requires ValidConfig(cfg)
    ensures Reachable(s) && s.up && s.cfg == cfg && !s.run.revoked && !s.run.died
    ensures |Held(s.b)| == cfg.cap + Min(cfg.cap, cfg.queueCap) > cfg.cap
  {
    s := PurgeReached(cfg);
    GrantsMeanwhile(s);
    StepReachable(s, Grant);
    StepReachable(Next(s, Grant), Consenting(true));
    var rested := Next(Next(s, Grant), Consenting(true));
    s := SessionStarts(rested);
    BegunGathers(s, rested);
    s := Gathers(s, Min(cfg.cap, cfg.queueCap));
    ResetFills(s);
    StepReachable(s, WORK);
    s := Fills(Next(s, WORK));
  }
}
