/**
  * Runs that show where a guarantee ends: a batch handed to the sink after a completed
  * revocation and a new grant, a session replaced only halfway because the worker died, and
  * refused flush tokens that retention has already forgotten.
  */
module PipelineWitness {
  import opened Events
  import opened StoreSpec
  import opened FlushTable
  import opened Pipeline
  import opened PipelineFlow
  import opened PipelineOrder
  import opened PipelineDrain
  import opened PipelinePrivacy
  import opened PipelineTokens
  import opened PipelineHandover
  import opened PipelineDelivered
  import opened PipelineSingle

  // ---- a client that is open ----

  /** Nothing has been admitted yet. */
  predicate Rested(s: State) {
    && Serving(s) && s.cl.p == PRODUCER0 && !s.cl.session.active && s.cl.ordinal == 0
    && Empty(s.b, s.k.outstanding) && s.log.admitted == []
  }

  lemma Opens(cfg: Config)
    requires ValidConfig(cfg)
    ensures var s := Next(Init(cfg), Open(Granted, true));
            && Rested(s) && s.cfg == cfg && s.k == CONTROL0.(life := Life(Running, false, false))
  {
    assert Restamp([]) == [];
  }

  lemma Opened(cfg: Config) returns (s: State)
    requires ValidConfig(cfg)
    ensures Reachable(s) && Rested(s) && s.cfg == cfg && s.k == CONTROL0.(life := Life(Running, false, false))
  {
    InitReachable(cfg);
    Opens(cfg);
    StepReachable(Init(cfg), Open(Granted, true));
    s := Next(Init(cfg), Open(Granted, true));
  }

  // ---- the first session starts, whatever the worker is doing ----

  /** A producer on its way to push the first start marker. */
  predicate Starts(s: State, pc: ProducerPc, k: Control) {
    && Serving(s) && s.cl.p.pc == pc && s.b == NONE && s.log.admitted == []
    && (if pc.Reserve? then !s.cl.session.active
        else s.cl.session.active && s.cl.p.next == Started(false) && s.cl.p.payload == MARKER_PAYLOAD)
    && (if pc.Push? then
          && One(s.cl.p.pend) && s.cl.p.pend[0].ordinal == 1 && s.cl.p.pend[0].id == 0
          && s.cl.ordinal == 1 && s.k == k.(outstanding := 1)
        else
          s.cl.p.pend == [] && s.cl.ordinal == 0 && s.k == k && k.outstanding == 0)
  }

  /** The start marker is queued. */
  predicate Begun(s: State, k: Control) {
    && Serving(s) && s.cl.p == PRODUCER0 && s.cl.session.active && s.cl.ordinal == 1
    && InQueue(s.b, s.k.outstanding) && s.b.queue[0].ordinal == 1 && s.b.queue[0].id == 0
    && s.log.admitted == s.b.queue && s.k == k.(outstanding := 1, stats := s.k.stats)
  }

  lemma StartTaken(s: State)
    requires Rested(s)
    ensures Starts(Next(s, StartSession("", 0)), Reserve, s.k)
  {}

  lemma StartReserved(s: State, k: Control)
    requires Starts(s, Reserve, k)
    ensures Starts(Next(s, Producing), Gate, k)
  {}

  lemma StartGated(s: State, k: Control)
    requires Starts(s, Gate, k)
    ensures Starts(Next(s, Producing), Checks, k)
  {}

  lemma StartChecked(s: State, k: Control)
    requires Starts(s, Checks, k)
    ensures Starts(Next(s, Producing), Push, k)
  {
    assert Next(s, Producing) == Counted(s);
  }

  lemma StartPushed(s: State, k: Control)
    requires Starts(s, Push, k)
    ensures Begun(Next(s, Producing), k)
  {
    assert Next(s, Producing) == Accepted(s);
    assert [] + s.cl.p.pend == s.cl.p.pend;
  }

  lemma SessionStarts(rested: State) returns (s: State)
    requires Reachable(rested) && Rested(rested)
    ensures Reachable(s) && Begun(s, rested.k) && s.cfg == rested.cfg && s.run == rested.run
  {
    var k := rested.k;
    s := rested;
    StartTaken(s);
    StepReachable(s, StartSession("", 0));
    s := Next(s, StartSession("", 0));
    StartReserved(s, k);
    StepReachable(s, Producing);
    s := Next(s, Producing);
    StartGated(s, k);
    StepReachable(s, Producing);
    s := Next(s, Producing);
    StartChecked(s, k);
    StepReachable(s, Producing);
    s := Next(s, Producing);
    StartPushed(s, k);
    StepReachable(s, Producing);
    ProducerSpares(s);
    s := Next(s, Producing);
  }

  // ---- the worker dies between the markers ----

  /** A producer on its way to replace the session: its end marker comes first. */
  predicate Replaces(s: State, pc: ProducerPc) {
    && Serving(s) && s.cl.p.pc == pc && s.cl.session.active && s.k.w == WORKER0 && |s.log.admitted| == 1
    && s.cfg.cap >= 3 && s.cfg.queueCap >= 3 && |s.b.queue| == 1
    && (pc.Reserve? || (s.cl.p.next == EndThenStart && s.cl.p.kind == SessionEnd))
    && (if pc.Push? then |s.cl.p.pend| == 1 && s.cl.p.pend[0].kind.SessionEnd? else s.k.outstanding == 1)
  }

  predicate Halfway(s: State) {
    && s.up && s.cl.p.pc.Gate? && s.cl.p.next == Started(true)
    && |s.log.admitted| == 2 && s.log.admitted[1].kind.SessionEnd?
  }

  lemma EndMarkerTaken(s: State, k: Control)
    requires Begun(s, k) && k.w == WORKER0 && s.cfg.cap >= 3 && s.cfg.queueCap >= 3
    ensures Replaces(Next(s, StartSession("", 0)), Reserve)
  {}

  lemma EndMarkerReserved(s: State)
    requires Replaces(s, Reserve)
    ensures Replaces(Next(s, Producing), Gate)
  {}

  lemma EndMarkerGated(s: State)
    requires Replaces(s, Gate)
    ensures Replaces(Next(s, Producing), Checks)
  {}

  lemma EndMarkerChecked(s: State)
    requires Replaces(s, Checks)
    ensures Replaces(Next(s, Producing), Push)
  {
    assert Next(s, Producing) == Counted(s);
  }

  lemma EndMarkerPushed(s: State)
    requires Replaces(s, Push)
    ensures Halfway(Next(s, Producing)) && Next(s, Producing).k.w == WORKER0
  {
    assert Next(s, Producing) == AcceptedThenStart(s);
  }

  lemma HalfwayReached(begun: State, k: Control) returns (s: State)
    requires Reachable(begun) && Begun(begun, k) && k.w == WORKER0
    requires begun.cfg.cap >= 3 && begun.cfg.queueCap >= 3
    ensures Reachable(s) && Halfway(s) && s.k.w == WORKER0
  {
    s := begun;
    EndMarkerTaken(s, k);
    StepReachable(s, StartSession("", 0));
    s := Next(s, StartSession("", 0));
    EndMarkerReserved(s);
    StepReachable(s, Producing);
    s := Next(s, Producing);
    EndMarkerGated(s);
    StepReachable(s, Producing);
    s := Next(s, Producing);
    EndMarkerChecked(s);
    StepReachable(s, Producing);
    s := Next(s, Producing);
    EndMarkerPushed(s);
    StepReachable(s, Producing);
    s := Next(s, Producing);
  }

  lemma WorkerDies(s: State)
    requires Halfway(s) && s.k.w == WORKER0
    ensures Halfway(Next(s, Dies)) && Next(s, Dies).k.w.pc.Dying?
  {}

  lemma AdmissionCloses(s: State)
    requires Halfway(s) && s.k.w.pc.Dying?
    ensures Halfway(Next(s, WORK)) && Next(s, WORK).k.life.terminated
  {}

  lemma StartRefused(s: State)
    requires Halfway(s) && s.k.life.terminated
    ensures var t := Next(s, Producing);
            t.up && t.log == s.log && !t.cl.session.active && t.cl.p.pc.ProducerIdle?
  {}

  /** The refusal of the second marker, which the program takes for impossible, is reached: the
      old session has ended, the new one has not begun, and no session is active. */
  lemma DeathBetweenMarkers(cfg: Config) returns (s: State)
    requires ValidConfig(cfg) && cfg.cap >= 3 && cfg.queueCap >= 3
    ensures Reachable(s) && s.up && !s.cl.session.active && s.cl.p.pc.ProducerIdle?
    ensures |s.log.admitted| == 2 && s.log.admitted[1].kind.SessionEnd?
  {
    var open := Opened(cfg);
    var begun := SessionStarts(open);
    s := HalfwayReached(begun, open.k);
    WorkerDies(s);
    StepReachable(s, Dies);
    s := Next(s, Dies);
    AdmissionCloses(s);
    StepReachable(s, WORK);
    s := Next(s, WORK);
    StartRefused(s);
    StepReachable(s, Producing);
    s := Next(s, Producing);
  }

  // ---- a batch that is written after revocation and new consent ----

  /** The only event is on its way to the sink. */
  predicate Underway(s: State) {
    && Serving(s) && s.cl.p == PRODUCER0 && |s.log.admitted| == 1
    && Place(s.k.w, s.b, s.k.outstanding) && s.b != NONE
    && (s.k.w.pc.Pop? || Storing(s.k.w.pc) || s.k.w.pc.DeliverConsent? || s.k.w.pc.Fetch?)
  }

  predicate FetchedIt(s: State) {
    && Serving(s) && s.cl.p == PRODUCER0 && |s.log.admitted| == 1
    && s.k.w.pc.LatchDeliveryGen? && InRows(s.b, s.k.outstanding) && s.k.w.batch == s.b.rows
  }

  lemma TurnBegins(s: State, k: Control)
    requires Begun(s, k) && k.w == WORKER0
    ensures Underway(Next(s, WORK))
  {
    assert Next(s, WORK) == s.(k := LatchRequest(s));
  }

  lemma MovesUnderway(s: State)
    requires Underway(s) && Moves(s.k.w.pc)
    ensures var t := MovingNext(s, true, NO_FAULT);
            && Place(t.k.w, t.b, t.k.outstanding) && t.b != NONE && t.log == s.log && t.k.life == s.k.life
            && (if s.k.w.pc.Fetch? then t.k.w.pc.LatchDeliveryGen?
                else t.k.w.pc.DeliverConsent? || Storing(t.k.w.pc))
            && (Rank(t.k.w.pc) < Rank(s.k.w.pc) || (t.k.w.pc == s.k.w.pc && |t.b.hand| < |s.b.hand|))
  {
    match s.k.w.pc
    case Pop => Pops(s);
    case TakeRetry => Joins(s);
    case Sift => Sifts(s);
    case Insert => Stores(s);
    case Fetch => Fetches(s);
  }

  lemma ReadsUnderway(s: State)
    requires Underway(s) && !Moves(s.k.w.pc)
    ensures var k := QuietNext(s, true);
            && Place(k.w, s.b, k.outstanding) && k.life == s.k.life && Rank(k.w.pc) < Rank(s.k.w.pc)
            && (Storing(k.w.pc) || k.w.pc.Fetch?)
  {
    ReadsOn(s);
  }

  lemma {:induction false} GetsFetched(s: State) returns (t: State)
    requires Reachable(s) && Underway(s)
    ensures Reachable(t) && FetchedIt(t)
    decreases Rank(s.k.w.pc), |s.b.hand|
  {
    WorkSpares(s, true, NO_FAULT);
    if Moves(s.k.w.pc) { MovesUnderway(s); } else { ReadsUnderway(s); }
    StepReachable(s, WORK);
    t := Next(s, WORK);
    if !s.k.w.pc.Fetch? { t := GetsFetched(t); }
  }

  lemma FetchedIsStale(s: State)
    requires Order(s) && FetchedIt(s)
    ensures HasStale(s, 1)
  {
    LineParts(s.b);
    assert s.b.rows[0] in s.b.rows;
    assert s.k.w.batch[0] in s.k.w.batch;
  }

  lemma StaleFetched(cfg: Config) returns (s: State)
    requires ValidConfig(cfg)
    ensures Reachable(s) && FetchedIt(s) && HasStale(s, 1)
  {
    var open := Opened(cfg);
    s := SessionStarts(open);
    TurnBegins(s, open.k);
    StepReachable(s, WORK);
    s := GetsFetched(Next(s, WORK));
    ReachableIsSound(s);
    FetchedIsStale(s);
  }

  /** The bound of one batch is reached: a batch fetched before a revocation can be handed to
      the sink after that revocation, and a new grant, have both returned Ok. */
  lemma StaleWriteAfterNewConsent(cfg: Config) returns (s: State)
    requires ValidConfig(cfg)
    ensures Reachable(s) && s.cl.consent == Granted && s.cl.c.pc.ConsentIdle? && s.run.boundary == 1
    ensures s.log.purgedBelow == 1 && StartsStaleWrite(s, WORK, s.run.boundary)
  {
    s := StaleFetched(cfg);
    StepReachable(s, Revoke(Denied));
    s := Regranted(Revoked(s, Denied));
    assert HasStale(s, 1);
    GrantedWorks(s, 1);
    StepReachable(s, WORK);
    s := Next(s, WORK);
    GrantedWorks(s, 1);
    StepReachable(s, WORK);
    s := Next(s, WORK);
  }

  // ---- a batch that is counted after the purge ----

  /** The only event, fetched, on its way to its acknowledgment. */
  predicate OnItsWay(s: State) {
    && Serving(s) && s.cl.p == PRODUCER0 && |s.log.admitted| == 1
    && HoldsBatch(s.k.w.pc) && Place(s.k.w, s.b, s.k.outstanding)
  }

  predicate AckedIt(s: State) {
    && Serving(s) && s.cl.p == PRODUCER0 && |s.log.admitted| == 1
    && s.k.w.pc.SettleAck? && s.k.w.settle == 1
  }

  lemma DeliveryReads(s: State)
    requires OnItsWay(s) && !Moves(s.k.w.pc)
    ensures var k := QuietNext(s, true);
            && Place(k.w, s.b, k.outstanding) && HoldsBatch(k.w.pc) && Rank(k.w.pc) < Rank(s.k.w.pc)
            && k.life == s.k.life
  {
    ReadsOn(s);
    QuietFlow(s, true);
  }

  lemma DeliveryWrites(s: State)
    requires OnItsWay(s) && s.k.w.pc.Writing?
    ensures var t := MovingNext(s, true, NO_FAULT);
            && Place(t.k.w, t.b, t.k.outstanding) && t.k.w.pc.RecheckConsent? && t.k.life == s.k.life && t.log == s.log
  {
    Writes(s);
    assert MovingNext(s, true, NO_FAULT) == Written(s);
  }

  lemma DeliveryAcks(s: State)
    requires OnItsWay(s) && s.k.w.pc.Ack?
    ensures var t := MovingNext(s, true, NO_FAULT);
            t.k.w.pc.SettleAck? && t.k.w.settle == 1 && t.k.life == s.k.life && t.log == s.log
  {
    AcksOn(s);
    MovingFlow(s, true, NO_FAULT);
  }

  lemma {:induction false} GetsAcked(s: State) returns (t: State)
    requires Reachable(s) && OnItsWay(s)
    ensures Reachable(t) && AckedIt(t)
    decreases Rank(s.k.w.pc)
  {
    WorkSpares(s, true, NO_FAULT);
    if s.k.w.pc.Ack? {
      DeliveryAcks(s);
    } else if s.k.w.pc.Writing? {
      DeliveryWrites(s);
    } else {
      DeliveryReads(s);
    }
    StepReachable(s, WORK);
    t := Next(s, WORK);
    if !s.k.w.pc.Ack? { t := GetsAcked(t); }
  }

  /** A revocation goes on to the commit of its purge while the worker stands still. */
  lemma {:induction false} PurgeCommitted(s: State) returns (t: State)
    requires Reachable(s) && s.up && CallerFree(s.cl) && !StoreLocked(s) && CallsLeft(s.cl.c.pc) >= 3
    ensures Reachable(t) && PurgeCompleted(t) && t.k.w == s.k.w && t.log.admitted == s.log.admitted
    decreases CallsLeft(s.cl.c.pc)
  {
    if s.cl.c.pc.ResetCount? {
      t := s;
    } else {
      CallerGoesOn(s);
      StepReachable(s, CallerStep(s.cl.c.pc));
      t := PurgeCommitted(Next(s, CallerStep(s.cl.c.pc)));
    }
  }

  /** An event is counted as delivered after the purge of a revocation has removed it. */
  lemma CountedAfterPurge(cfg: Config) returns (s: State)
    requires ValidConfig(cfg)
    ensures Reachable(s) && PurgeCompleted(s) && s.k.w.pc.SettleAck? && s.k.w.settle == 1 && |s.log.admitted| == 1
    ensures Next(s, WORK).k.stats.delivered == s.k.stats.delivered + 1
  {
    s := StaleFetched(cfg);
    s := GetsAcked(s);
    StepReachable(s, Revoke(Denied));
    s := PurgeCommitted(Revoked(s, Denied));
    WorkCounts(s, true, NO_FAULT);
  }

  // ---- a turn with nothing to do ----

  /** As in `r`, but for the worker's place. */
  predicate Passing(s: State, r: State, pc: WorkerPc) {
    && s == r.(k := r.k.(w := s.k.w)) && s.k.w.pc == pc
    && s.k.w.pass == r.k.w.pass.(moved := s.k.w.pass.moved, delivered := s.k.w.pass.delivered)
  }

  lemma PopsNothing(r: State)
    requires r.up && r.b == NONE && r.k.w.pc.Pop?
    ensures Passing(Next(r, WORK), r, TakeRetry)
  {
    assert Next(r, WORK) == Drain(r);
  }

  lemma TakesNothing(s: State, r: State)
    requires r.up && r.b == NONE && Passing(s, r, TakeRetry)
    ensures Passing(Next(s, WORK), r, DeliverConsent)
  {
    assert Next(s, WORK) == ToDeliver(s);
  }

  lemma MayDeliver(s: State, r: State)
    requires r.up && r.cl.consent == Granted && Passing(s, r, DeliverConsent)
    ensures Passing(Next(s, WORK), r, Fetch)
  {}

  lemma FetchesNothing(s: State, r: State)
    requires r.up && r.b == NONE && Passing(s, r, Fetch)
    ensures Passing(Next(s, WORK), r, AfterDeliver)
  {
    FetchNone(s.cfg.batch);
    assert Next(s, WORK) == Fetched(s, FetchResult([], [], 0, Ok), 0);
  }

  lemma EmptyTurn(r: State) returns (s: State)
    requires Reachable(r) && Serving(r) && r.b == NONE && r.k.w.pc.Pop?
    ensures Reachable(s) && Passing(s, r, AfterDeliver)
  {
    PopsNothing(r);
    StepReachable(r, WORK);
    s := Next(r, WORK);
    TakesNothing(s, r);
    StepReachable(s, WORK);
    s := Next(s, WORK);
    MayDeliver(s, r);
    StepReachable(s, WORK);
    s := Next(s, WORK);
    FetchesNothing(s, r);
    StepReachable(s, WORK);
    s := Next(s, WORK);
  }

  // ---- more refusals than the table retains ----

  predicate Asked(s: State, n: nat) {
    && s.up && s.k.w.pc.LoopEnd? && s.k.flush.table.issued == n && s.k.flush.serviced == 0
    && !s.k.flush.table.finished
  }

  lemma FirstTurn(s: State)
    requires Rested(s) && s.k.w == WORKER0 && s.k.flush == CONTROL0.flush
    ensures var t := Next(s, WORK);
            && Serving(t) && t.b == NONE && t.k.w.pc.Pop? && !t.k.w.pass.pending && !t.k.w.pass.draining
            && t.k.flush == s.k.flush
  {
    assert Next(s, WORK) == s.(k := LatchRequest(s));
  }

  lemma TurnEnds(s: State)
    requires s.up && s.k.w.pc.AfterDeliver? && !s.k.w.pass.pending && !s.k.w.pass.draining
    requires s.k.flush == CONTROL0.flush
    ensures Asked(Next(s, WORK), 0)
  {}

  lemma Submits(s: State, n: nat)
    requires Asked(s, n)
    ensures Asked(Next(s, IssueToken(0)), n + 1)
  {
    assert Next(s, IssueToken(0)) == TokenIssued(s, 0);
  }

  lemma Submitted(idle: State, n: nat) returns (s: State)
    requires Reachable(idle) && Asked(idle, 0)
    ensures Reachable(s) && Asked(s, n)
  {
    s := idle;
    for i := 0 to n
      invariant Reachable(s) && Asked(s, i)
    {
      Submits(s, i);
      StepReachable(s, IssueToken(0));
      s := Next(s, IssueToken(0));
    }
  }

  lemma StopAsked(s: State, n: nat)
    requires Asked(s, n)
    ensures Asked(Next(s, RequestStop), n) && Next(s, RequestStop).k.life.stop
  {}

  lemma LoopLeft(s: State)
    requires s.up && s.k.w.pc.LoopEnd? && s.k.life.stop
    ensures Next(s, WORK).up && Next(s, WORK).k == s.k.(w := s.k.w.(pc := Exiting))
  {}

  lemma WorkerExits(s: State)
    requires s.up && s.k.w.pc.Exiting?
    ensures Next(s, WORK).up && Next(s, WORK).k.flush == Refuses(s.k.flush, s.k.w.pass.handled)
  {}

  /** With 257 flushes submitted before the worker's exit and none of them run, the first one
      is answered with Internal, not AlreadyShutdown. */
  lemma RefusalForgotten(cfg: Config) returns (s: State)
    requires ValidConfig(cfg)
    ensures Reachable(s) && s.up && s.k.flush.table.finished && s.k.flush.serviced == 0
    ensures s.k.flush.table.issued == 257 && Lookup(s.k.flush.table, 1) == Error(Internal)
  {
    s := Opened(cfg);
    FirstTurn(s);
    StepReachable(s, WORK);
    s := EmptyTurn(Next(s, WORK));
    TurnEnds(s);
    StepReachable(s, WORK);
    s := Submitted(Next(s, WORK), 257);
    StopAsked(s, 257);
    StepReachable(s, RequestStop);
    s := Next(s, RequestStop);
    LoopLeft(s);
    StepReachable(s, WORK);
    s := Next(s, WORK);
    WorkerExits(s);
    StepReachable(s, WORK);
    s := Next(s, WORK);
    NeverRunTokens(s, 1);
  }

  // ---- a purge under way when consent is first granted ----

  /** Open without consent, with nothing held. */
  predicate Unasked(s: State) {
    && s.up && ValidConfig(s.cfg) && !s.run.died && !s.run.revoked && s.cl.gen == 0 && !s.cl.purgeRequired
    && s.k.life == Life(Running, false, false) && s.cl.p == PRODUCER0 && !s.cl.session.active
    && s.cl.ordinal == 0 && Empty(s.b, s.k.outstanding) && s.log.admitted == []
    && s.k.flush.table.issued == 0 && !s.k.w.pass.pending && !s.k.w.pass.draining && s.k.w.settle == 0
  }

  lemma OpensUnasked(cfg: Config)
    requires ValidConfig(cfg)
    ensures var s := Next(Next(Init(cfg), Open(Unknown, true)), WORK);
            Unasked(s) && s.cfg == cfg && s.cl.consent == Unknown && s.cl.c.pc.ConsentIdle? && s.k.w.pc.Pop?
  {
    var s := Next(Init(cfg), Open(Unknown, true));
    assert s == OpenedEmpty(Init(cfg), Unknown);
    assert Next(s, WORK) == s.(k := LatchRequest(s));
  }

  lemma PurgeBegins(s: State)
    requires Unasked(s) && s.cl.consent == Unknown && s.k.w.pc.DeliverConsent?
    ensures var t := Next(s, WORK);
            Unasked(t) && t.cl == s.cl && t.cfg == s.cfg && t.k.w.pc.PurgeStore? && !t.k.w.fromProcess
  {}

  lemma PurgeCommits(s: State)
    requires Unasked(s) && s.k.w.pc.PurgeStore? && !s.k.w.fromProcess
    ensures var t := Next(s, WORK);
            Unasked(t) && t.cl == s.cl && t.cfg == s.cfg && t.k.w.pc.PurgeReset? && !t.k.w.fromProcess
  {
    assert Next(s, WORK) == Purged(s);
  }

  lemma GrantsMeanwhile(s: State)
    requires Unasked(s) && s.cl.c.pc.ConsentIdle?
    ensures var t := Next(Next(s, Grant), Consenting(true)); Rested(t) && t.k == s.k && t.cfg == s.cfg && !t.run.revoked
  {
    var a := Next(s, Grant);
    assert a == Granting(s) && a.cl.c.pc.SetGranted?;
    assert Next(a, Consenting(true)) == ConsentGranted(a);
  }

  lemma UnaskedPasses(s: State, r: State, pc: WorkerPc)
    requires Unasked(r) && Passing(s, r, pc) && s.k.w.settle == 0
    ensures Unasked(s) && s.cl == r.cl && s.cfg == r.cfg
  {}

  lemma UnaskedPops(r: State)
    requires Unasked(r) && r.k.w.pc.Pop?
    ensures var s := Next(Next(r, WORK), WORK);
            Unasked(s) && s.cl == r.cl && s.cfg == r.cfg && s.k.w.pc.DeliverConsent?
  {
    PopsNothing(r);
    TakesNothing(Next(r, WORK), r);
    assert Next(r, WORK) == Drain(r) && Next(Next(r, WORK), WORK) == ToDeliver(Drain(r));
    UnaskedPasses(Next(Next(r, WORK), WORK), r, DeliverConsent);
  }

  lemma UnaskedDelivers(cfg: Config) returns (s: State)
    requires ValidConfig(cfg)
    ensures Reachable(s) && Unasked(s) && s.cfg == cfg && s.cl.c.pc.ConsentIdle?
    ensures s.cl.consent == Unknown && s.k.w.pc.DeliverConsent?
  {
    InitReachable(cfg);
    s := Next(Init(cfg), Open(Unknown, true));
    StepReachable(Init(cfg), Open(Unknown, true));
    StepReachable(s, WORK);
    OpensUnasked(cfg);
    s := Next(s, WORK);
    UnaskedPops(s);
    StepReachable(s, WORK);
    StepReachable(Next(s, WORK), WORK);
    s := Next(Next(s, WORK), WORK);
  }

  lemma PurgeReached(cfg: Config) returns (s: State)
    requires ValidConfig(cfg)
    ensures Reachable(s) && Unasked(s) && s.cfg == cfg && s.cl.c.pc.ConsentIdle?
    ensures s.k.w.pc.PurgeReset? && !s.k.w.fromProcess
  {
    s := UnaskedDelivers(cfg);
    PurgeBegins(s);
    StepReachable(s, WORK);
    s := Next(s, WORK);
    PurgeCommits(s);
    StepReachable(s, WORK);
    s := Next(s, WORK);
  }

  lemma ResetForgets(s: State, k: Control)
    requires Begun(s, k) && k.w.pc.PurgeReset? && !s.run.revoked
    ensures var t := Next(s, WORK);
            t.up && !t.run.revoked && !t.run.died && t.k.outstanding == 0 && t.b.queue == s.b.queue
  {
    assert Next(s, WORK) == s.(k := CountReset(s));
  }

  /** Without a revocation or a death the counter can still miss an event: one that is admitted,
      under the first grant, before the reset of a purge that began without consent. */
  lemma CounterMissesOne(cfg: Config) returns (s: State)
    requires ValidConfig(cfg)
    ensures Reachable(s) && s.up && !s.run.revoked && !s.run.died && s.k.outstanding == 0 && |s.b.queue| == 1
  {
    s := PurgeReached(cfg);
    GrantsMeanwhile(s);
    StepReachable(s, Grant);
    StepReachable(Next(s, Grant), Consenting(true));
    var rested := Next(Next(s, Grant), Consenting(true));
    s := SessionStarts(rested);
    ResetForgets(s, rested.k);
    StepReachable(s, WORK);
    s := Next(s, WORK);
  }
}
