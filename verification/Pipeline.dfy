/**
  * The telemetry pipeline as a system of steps.
  *
  * The threads are the producers (serialized by the admission lock), one consent caller
  * (serialized by the consent lock) and the worker. A step is one access to shared state, or
  * one critical section of the store lock; between any two steps every other thread may run,
  * and the process may die. `Next(s, step)` is the state after `step`; a step that is not
  * enabled changes nothing, so every sequence of steps is a run.
  *
  * `Run`, `Log` and `Fate`, and the fields marked "history", are never read by a thread.
  */
module Pipeline {
  import opened Events
  import opened StoreSpec
  import opened Sessions
  import opened FlushTable

  datatype Config = Config(cap: nat, queueCap: nat, batch: nat)

  /** The limits that validate_config insists on. */
  predicate ValidConfig(c: Config) {
    c.cap >= 1 && 1 <= c.batch <= c.queueCap
  }

  // ---- where events are ---------------------------------------------------------------

  datatype Buffers = Buffers(
    rows: seq<Event>,       // committed in the store
    retry: seq<Event>,      // the worker's retry buffer
    keep: seq<Event>,       // in the worker's hands: serialized, not yet stored
    hand: seq<Event>,       // in the worker's hands: drained, not yet sifted
    queue: seq<Event>)

  // ---- the worker -------------------------------------------------------------------

  datatype WorkerPc =
    | Top | Pop | TakeRetry                                    // run: latch, drain
    | LatchGen | ReadConsent | DiscardBatch | Sift             // process_incoming
    | BoundaryConsent | BoundaryGen | Insert | DiscardKeep | Hold
    | DeliverConsent | Fetch | SettleQuarantine                // deliver_all
    | LatchDeliveryGen | PreWriteConsent | StartWrite | Writing
    | RecheckConsent | RecheckGen | Ack | SettleAck
    | PurgeStore | PurgeReset                                  // purge_store
    | AfterDeliver | LoadBarrier | DrainSize                   // the flush pass
    | CheckQueue | CheckRetry | CheckStore
    | FlushSink | TakeOutcome | RecordOutcome | LoopEnd
    | Dying | Exiting | Exited                                 // the end of run

  /** The local variables of run() that belong to a flush pass. */
  datatype Pass = Pass(
    want: nat,
    handled: nat,
    pending: bool,          // flush_pending
    draining: bool,         // inside the drain loop
    final: bool,            // at the residual check after the loop
    barrier: nat,
    queueBefore: nat,
    moved: bool,
    delivered: bool,
    outcome: Status)

  datatype Worker = Worker(
    pc: WorkerPc,
    gen: nat,               // the generation latched last
    batch: seq<Event>,      // fetched for the sink
    scanned: nat,           // history: `batch` is the usable part of the first `scanned` rows
    settle: nat,            // rows already gone whose capacity is not yet released
    fromProcess: bool,      // purge_store was called by process_incoming
    pass: Pass)

  const WORKER0 :=
    Worker(Top, 0, [], 0, 0, false, Pass(0, 0, false, false, false, 0, 0, false, false, Ok))

  // ---- the callers: producers and the consent caller ----------------------------------

  datatype ConsentPc = ConsentIdle | Bump | ClearQueue | ReleaseQueue | DiscardRetry
                     | ReleaseRetry | Mark | PurgeRows | ResetCount | SetGranted

  datatype ConsentCaller = ConsentCaller(pc: ConsentPc, dropped: nat, granting: bool)

  datatype ProducerPc = ProducerIdle | Reserve | Gate | Checks | Push

  /** What the caller of admit_locked does next. */
  datatype Then = Return | EndSession | EndThenStart | Started(replacing: bool)

  datatype Producer = Producer(
    pc: ProducerPc,
    kind: Kind,
    payload: Payload,
    next: Then,
    previous: Session,      // the snapshot start_session takes
    player: string,
    nowMs: int,
    pend: seq<Event>)       // counted in `outstanding`, not yet in the queue

  const PRODUCER0 :=
    Producer(ProducerIdle, Custom, Payload(true, true), Return, NO_SESSION, "", 0, [])

  /** Everything the worker only reads. */
  datatype Callers = Callers(
    consent: Consent,
    gen: nat,
    purgeRequired: bool,
    ordinal: nat,
    session: Session,
    c: ConsentCaller,
    p: Producer)

  const CALLERS0 :=
    Callers(Unknown, 0, false, 0, NO_SESSION, ConsentCaller(ConsentIdle, 0, false), PRODUCER0)

  datatype Lifecycle = Running | Stopping | Stopped

  datatype Life = Life(state: Lifecycle, terminated: bool, stop: bool)

  datatype Flush = Flush(
    barrier: nat,           // flush_barrier_
    table: Table,
    pendingError: Status,
    captured: seq<nat>,     // history: captured[t - 1] is the ordinal token t must cover
    recorded: map<nat, Status>,   // history: every outcome ever recorded
    serviced: nat)          // history: the tokens up to this one were answered by a pass

  datatype Stats = Stats(accepted: nat, discardedConsent: nat, droppedInvalid: nat,
                         persisted: nat, delivered: nat)

  // ---- history ------------------------------------------------------------------------

  /** Facts about the current run. */
  datatype Run = Run(
    recovered: nat,         // rows found when the run opened
    boundary: nat,          // |admitted| at this run's latest revocation
    condemned: nat,         // markBelow when the run opened
    caught: bool,           // consent was granted while the worker was inside a purge
    revoked: bool,          // set_consent was called with something other than Granted
    died: bool)             // the worker died

  const RUN0 := Run(0, 0, 0, false, false, false)

  /** What the callers have done, over all runs. */
  datatype Log = Log(
    admitted: seq<Event>,   // every event ever pushed
    sessions: nat,          // session identifiers 0..sessions-1 have been used
    revokedBelow: nat,      // |admitted| at the latest revocation, or opening without consent
    markBelow: nat,         // |admitted| when the latest revocation marker was committed
    purgedBelow: nat)       // |admitted| when a caller's purge was last committed

  /** What has become of events, over all runs. */
  datatype Fate = Fate(
    stored: set<nat>,           // ever committed
    wrote: set<nat>,            // in some sink write that returned Ok
    acked: seq<nat>,            // in the order their rows were acknowledged
    invalid: set<nat>,          // not serializable, or quarantined
    consentDropped: set<nat>,   // discarded or purged for want of consent
    lost: set<nat>)             // in memory when the process or the worker died

  /** Counters, flags and the worker itself. */
  datatype Control = Control(
    outstanding: nat,
    life: Life,
    flush: Flush,
    stats: Stats,
    w: Worker)

  const CONTROL0 :=
    Control(0, Life(Stopped, false, false), Flush(0, EMPTY, Ok, [], map[], 0), Stats(0, 0, 0, 0, 0), WORKER0)

  datatype State = State(
    cfg: Config,
    up: bool,
    marker: bool,           // the durable revocation marker
    b: Buffers,             // `b.rows` is durable, the rest is memory
    cl: Callers,
    k: Control,
    run: Run,
    log: Log,
    fate: Fate)

  /** No process, over a given database and history. */
  function Down(cfg: Config, rows: seq<Event>, marker: bool, log: Log, fate: Fate): State {
    State(cfg, false, marker, Buffers(rows, [], [], [], []), CALLERS0,
          CONTROL0, RUN0, log, fate)
  }

  /** Before the first run: an empty database. */
  function Init(cfg: Config): State {
    Down(cfg, [], false, Log([], 0, 0, 0, 0), Fate({}, {}, [], {}, {}, {}))
  }

  // ---- steps --------------------------------------------------------------------------

  datatype Step =
    | Work(ok: bool, fault: FetchFault)                 // the worker's next step
    | Dies                                              // an exception reaches run()
    | Revoke(target: Consent)                           // set_consent(Unknown or Denied)
    | Grant                                             // set_consent(Granted)
    | Consenting(ok: bool)                              // its next step
    | Track(entryGen: nat, payload: Payload)            // takes the admission lock
    | StartSession(player: string, nowMs: int)
    | CloseSession
    | Producing                                         // the lock holder's next step
    | RaiseBarrier(ordinal: nat)                        // submit_flush, first half
    | IssueToken(ordinal: nat)                          // submit_flush, second half
    | BeginShutdown
    | RequestStop
    | FinishShutdown
    | Crash
    | Open(initial: Consent, purges: bool)              // ClientInternal::create

  /** The worker's step when nothing goes wrong. */
  const WORK := Work(true, NO_FAULT)

  /** release_outstanding: never below zero. */
  function Release(count: nat, n: nat): nat {
    if count > n then count - n else 0
  }

  /** note_error: the first error since the pass began is the one kept. */
  function Note(pending: Status, error: Status): Status {
    if pending == Ok then error else pending
  }

  function NoteError(f: Flush, error: Status): Flush {
    f.(pendingError := Note(f.pendingError, error))
  }

  // ---- worker steps that move no event: they change only `k` ----------------------------

  function At(s: State, pc: WorkerPc): Control {
    s.k.(w := s.k.w.(pc := pc))
  }

  /** An operation failed: note the error and go on at `pc`. */
  function FailedAt(s: State, code: Code, pc: WorkerPc): Control {
    s.k.(flush := NoteError(s.k.flush, Error(code)), w := s.k.w.(pc := pc))
  }

  /** run: latch the flush request before doing any work. */
  function LatchRequest(s: State): Control {
    var pending := s.k.flush.table.issued > s.k.w.pass.handled;
    s.k.(w := s.k.w.(pc := Pop,
                     pass := s.k.w.pass.(want := s.k.flush.table.issued, pending := pending,
                                         draining := false)),
         flush := s.k.flush.(pendingError := if pending then Ok else s.k.flush.pendingError))
  }

  function LatchIncoming(s: State): Control {
    s.k.(w := s.k.w.(pc := ReadConsent, gen := s.cl.gen))
  }

  /** A consent check of deliver_all: purge_store unless consent is granted. */
  function IfGranted(s: State, pc: WorkerPc): Control {
    s.k.(w := s.k.w.(pc := if s.cl.consent == Granted then pc else PurgeStore, fromProcess := false))
  }

  function AfterFetch(batch: seq<Event>): WorkerPc {
    if batch == [] then AfterDeliver else LatchDeliveryGen
  }

  function QuarantineSettled(s: State): Control {
    s.k.(outstanding := Release(s.k.outstanding, s.k.w.settle),
         stats := s.k.stats.(droppedInvalid := s.k.stats.droppedInvalid + s.k.w.settle),
         w := s.k.w.(pc := AfterFetch(s.k.w.batch), settle := 0))
  }

  function LatchDelivery(s: State): Control {
    s.k.(w := s.k.w.(pc := PreWriteConsent, gen := s.cl.gen))
  }

  function RecheckedGen(s: State): Control {
    s.k.(w := s.k.w.(pc := if s.cl.gen == s.k.w.gen then Ack else PurgeStore, fromProcess := false))
  }

  function DeliverySettled(s: State): Control {
    s.k.(outstanding := Release(s.k.outstanding, s.k.w.settle),
         stats := s.k.stats.(delivered := s.k.stats.delivered + s.k.w.settle),
         w := s.k.w.(pc := DeliverConsent, settle := 0, pass := s.k.w.pass.(delivered := true)))
  }

  /** The return from purge_store, into deliver_all or out of it. */
  function ReturnFromPurge(w: Worker): Worker {
    w.(pc := if w.fromProcess then DeliverConsent else AfterDeliver,
       pass := w.pass.(delivered := w.pass.delivered && !w.fromProcess))
  }

  /** The count taken in the purge's critical section is zero: nothing else inserts rows. */
  function CountReset(s: State): Control {
    s.k.(outstanding := 0, w := ReturnFromPurge(s.k.w))
  }

  function AfterDelivery(s: State): Control {
    var pass := s.k.w.pass;
    At(s, if !pass.draining then
            if pass.pending then LoadBarrier else LoopEnd
          else if !pass.moved && !pass.delivered && |s.b.queue| >= pass.queueBefore then
            FlushSink
          else
            CheckQueue)
  }

  function BarrierLoaded(s: State): Control {
    s.k.(w := s.k.w.(pc := CheckQueue,
                     pass := s.k.w.pass.(barrier := s.k.flush.barrier, final := false)))
  }

  /** One test of work_remains_at_or_below. Work that remains keeps the pass draining, or is
      what the final check reports; when nothing is left to test, the loop is done. */
  function Tested(s: State, remains: bool, last: bool, why: Code, next: WorkerPc): Control {
    var pass := s.k.w.pass;
    s.k.(w := s.k.w.(
           pc := if remains then (if pass.final then RecordOutcome else DrainSize)
                 else if last then (if pass.final then RecordOutcome else FlushSink)
                 else next,
           pass := pass.(outcome := if pass.final && remains then Note(pass.outcome, Error(why))
                                    else pass.outcome)))
  }

  predicate QueueRemains(s: State) {
    && s.k.w.pass.barrier != 0
    && s.b.queue != [] && s.b.queue[0].ordinal <= s.k.w.pass.barrier
  }

  predicate RetryRemains(s: State) {
    s.b.retry != [] && s.b.retry[0].ordinal <= s.k.w.pass.barrier
  }

  predicate StoreRemains(s: State, counts: bool) {
    !counts || CountUpTo(s.b.rows, s.k.w.pass.barrier) > 0
  }

  function TestedQueue(s: State): Control {
    Tested(s, QueueRemains(s), s.k.w.pass.barrier == 0, Timeout, CheckRetry)
  }

  function TestedRetry(s: State): Control {
    Tested(s, RetryRemains(s), false, StorageError, CheckStore)
  }

  function TestedStore(s: State, counts: bool): Control {
    Tested(s, StoreRemains(s, counts), true, if counts then SinkError else StorageError, FlushSink)
  }

  function DrainAgain(s: State): Control {
    s.k.(w := s.k.w.(pc := Pop,
                     pass := s.k.w.pass.(queueBefore := |s.b.queue|, draining := true)))
  }

  function SinkFlushed(s: State, ok: bool): Control {
    s.k.(flush := NoteError(s.k.flush, if ok then Ok else Error(SinkError)),
         w := s.k.w.(pc := TakeOutcome))
  }

  function OutcomeTaken(s: State): Control {
    s.k.(w := s.k.w.(pc := CheckQueue,
                     pass := s.k.w.pass.(outcome := s.k.flush.pendingError, final := true)),
         flush := s.k.flush.(pendingError := Ok))
  }

  function Answers(f: Flush, pass: Pass): Flush {
    f.(table := RecordPass(f.table, pass.handled, pass.want, pass.outcome),
       recorded := f.recorded + Entries(pass.handled + 1, pass.want, pass.outcome),
       serviced := pass.want)
  }

  function Recorded(s: State): Control {
    s.k.(flush := Answers(s.k.flush, s.k.w.pass),
         w := s.k.w.(pc := LoopEnd, pass := s.k.w.pass.(handled := s.k.w.pass.want)))
  }

  /** The exit answers the tokens no pass reached, with a refusal. */
  function Refuses(f: Flush, handled: nat): Flush {
    f.(table := Finish(f.table, handled),
       recorded := f.recorded + Entries(handled + 1, f.table.issued, Error(AlreadyShutdown)))
  }

  function AdmissionClosed(s: State): Control {
    s.k.(life := s.k.life.(terminated := true), w := s.k.w.(pc := Exiting))
  }

  function Finished(s: State): Control {
    s.k.(flush := Refuses(s.k.flush, s.k.w.pass.handled), w := s.k.w.(pc := Exited))
  }

  /** The program points whose step moves events or decides their fate. */
  predicate Moves(pc: WorkerPc) {
    || pc.Pop? || pc.TakeRetry? || pc.DiscardBatch? || pc.Sift? || pc.Insert? || pc.DiscardKeep?
    || pc.Hold? || pc.Fetch? || pc.Writing? || pc.Ack? || pc.PurgeStore?
  }

  function QuietNext(s: State, ok: bool): Control
    requires !Moves(s.k.w.pc)
  {
    match s.k.w.pc
    case Top => LatchRequest(s)
    case LatchGen => LatchIncoming(s)
    case ReadConsent => At(s, if s.cl.consent == Granted then Sift else DiscardBatch)
    // the store lock is taken here, and held until the insert or the refusal
    case BoundaryConsent => At(s, if s.cl.consent == Granted then BoundaryGen else DiscardKeep)
    case BoundaryGen => At(s, if s.cl.gen == s.k.w.gen then Insert else DiscardKeep)
    case DeliverConsent => IfGranted(s, Fetch)
    case SettleQuarantine => QuarantineSettled(s)
    case LatchDeliveryGen => LatchDelivery(s)
    case PreWriteConsent => IfGranted(s, StartWrite)
    case StartWrite => At(s, Writing)      // the sink is handed the batch
    case RecheckConsent => IfGranted(s, RecheckGen)
    case RecheckGen => RecheckedGen(s)
    case SettleAck => DeliverySettled(s)
    case PurgeReset => CountReset(s)
    case AfterDeliver => AfterDelivery(s)
    case LoadBarrier => BarrierLoaded(s)
    case DrainSize => DrainAgain(s)
    case CheckQueue => TestedQueue(s)
    case CheckRetry => TestedRetry(s)
    case CheckStore => TestedStore(s, ok)
    case FlushSink => SinkFlushed(s, ok)
    case TakeOutcome => OutcomeTaken(s)
    case RecordOutcome => Recorded(s)
    case LoopEnd => At(s, if s.k.life.stop then Exiting else Top)
    case Dying => AdmissionClosed(s)
    case Exiting => Finished(s)
    case Exited => s.k
  }

  // ---- worker steps that move events ----------------------------------------------------

  /** The worker at the call of deliver_all that follows process_incoming. */
  function Delivers(w: Worker): Worker {
    w.(pc := DeliverConsent, pass := w.pass.(delivered := false))
  }

  function ToDeliver(s: State): State {
    s.(k := s.k.(w := Delivers(s.k.w)))
  }

  function Drain(s: State): State {
    var n := Min(s.cfg.batch, |s.b.queue|);
    s.(b := s.b.(queue := s.b.queue[n..], hand := s.b.queue[..n]),
       k := s.k.(w := s.k.w.(pc := TakeRetry, pass := s.k.w.pass.(moved := n > 0))))
  }

  function JoinRetry(s: State): State {
    s.(b := s.b.(retry := [], hand := s.b.retry + s.b.hand), k := At(s, LatchGen))
  }

  function ConsentDrops(f: Fate, es: seq<Event>): Fate {
    f.(consentDropped := f.consentDropped + IdSet(es))
  }

  /** `n` events are discarded for want of consent and their capacity released. */
  function Discard(k: Control, n: nat): Control {
    k.(outstanding := Release(k.outstanding, n),
       stats := k.stats.(discardedConsent := k.stats.discardedConsent + n))
  }

  function DropIncoming(s: State): State {
    s.(b := s.b.(hand := []),
       k := Discard(s.k, |s.b.hand|).(w := s.k.w.(pc := PurgeStore, fromProcess := true)),
       fate := ConsentDrops(s.fate, s.b.hand))
  }

  function SiftStale(s: State): State
    requires s.b.hand != []
  {
    s.(b := s.b.(hand := s.b.hand[1..]),
       k := Discard(s.k, 1),
       fate := ConsentDrops(s.fate, [s.b.hand[0]]))
  }

  function SiftInvalid(s: State): State
    requires s.b.hand != []
  {
    s.(b := s.b.(hand := s.b.hand[1..]),
       k := s.k.(outstanding := Release(s.k.outstanding, 1),
                 stats := s.k.stats.(droppedInvalid := s.k.stats.droppedInvalid + 1)),
       fate := s.fate.(invalid := s.fate.invalid + {s.b.hand[0].id}))
  }

  function SiftKeep(s: State): State
    requires s.b.hand != []
  {
    s.(b := s.b.(hand := s.b.hand[1..], keep := s.b.keep + [s.b.hand[0]]))
  }

  function Stored(s: State): State {
    s.(b := s.b.(rows := InsertIgnore(s.b.rows, s.b.keep), keep := []),
       k := s.k.(stats := s.k.stats.(persisted := s.k.stats.persisted + |s.b.keep|),
                 w := Delivers(s.k.w)),
       fate := s.fate.(stored := s.fate.stored + IdSet(s.b.keep)))
  }

  function DropKept(s: State): State {
    s.(b := s.b.(keep := []),
       k := Discard(s.k, |s.b.keep|).(w := Delivers(s.k.w)),
       fate := ConsentDrops(s.fate, s.b.keep))
  }

  function HoldForRetry(s: State): State {
    s.(b := s.b.(retry := s.b.keep + s.b.retry, keep := []), k := s.k.(w := Delivers(s.k.w)))
  }

  function Fetched(s: State, f: FetchResult, scanned: nat): State {
    s.(k := s.k.(flush := NoteError(s.k.flush, f.status),
                 w := s.k.w.(pc := AfterFetch(f.events), batch := f.events, scanned := scanned)))
  }

  function FetchedAndQuarantined(s: State, f: FetchResult): State {
    s.(b := s.b.(rows := f.rows),
       k := s.k.(flush := NoteError(s.k.flush, f.status),
                 w := s.k.w.(pc := SettleQuarantine, batch := f.events, settle := f.quarantined,
                             scanned := |f.events|)),
       fate := s.fate.(invalid := s.fate.invalid + (IdSet(s.b.rows) - IdSet(f.rows))))
  }

  function Written(s: State): State {
    s.(k := At(s, RecheckConsent), fate := s.fate.(wrote := s.fate.wrote + IdSet(s.k.w.batch)))
  }

  /** The events of `batch` that are still rows, in batch order. */
  function Removed(rows: seq<Event>, batch: seq<Event>): seq<Event> {
    if batch == [] then []
    else if batch[0].id in IdSet(rows) then [batch[0]] + Removed(rows, batch[1..])
    else Removed(rows, batch[1..])
  }

  function Acks(s: State): Fate {
    s.fate.(acked := s.fate.acked + Ids(Removed(s.b.rows, s.k.w.batch)))
  }

  function Acknowledged(s: State): State {
    s.(b := s.b.(rows := Without(s.b.rows, IdSet(s.k.w.batch))),
       k := s.k.(w := s.k.w.(pc := SettleAck, settle := |s.k.w.batch|)),
       fate := Acks(s))
  }

  /** The deletion committed, but the store and the batch disagree. */
  function Misacknowledged(s: State): State {
    s.(b := s.b.(rows := Without(s.b.rows, IdSet(s.k.w.batch))),
       k := FailedAt(s, StorageError, AfterDeliver),
       fate := Acks(s))
  }

  /** DELETE FROM events and the removal of the marker, in one transaction. */
  function Purged(s: State): State {
    s.(marker := false, b := s.b.(rows := []), k := At(s, PurgeReset),
       fate := ConsentDrops(s.fate, s.b.rows))
  }

  function PurgeFailed(s: State): State {
    s.(k := s.k.(flush := NoteError(s.k.flush, Error(StorageError)), w := ReturnFromPurge(s.k.w)))
  }

  function MovingNext(s: State, ok: bool, fault: FetchFault): State
    requires Moves(s.k.w.pc)
  {
    match s.k.w.pc
    case Pop => Drain(s)
    case TakeRetry => if s.b.retry + s.b.hand == [] then ToDeliver(s) else JoinRetry(s)
    case DiscardBatch => DropIncoming(s)
    case Sift =>
      if s.b.hand != [] then
        if s.b.hand[0].gen != s.k.w.gen then SiftStale(s)
        else if !s.b.hand[0].payload.serializes then SiftInvalid(s)
        else SiftKeep(s)
      else if s.b.keep == [] then ToDeliver(s)
      else s.(k := At(s, BoundaryConsent))
    case Insert => if ok then Stored(s) else s.(k := FailedAt(s, StorageError, Hold))
    case DiscardKeep => DropKept(s)
    case Hold => HoldForRetry(s)
    case Fetch =>
      var f := FetchPending(s.b.rows, s.cfg.batch, fault);
      if f.quarantined > 0 then FetchedAndQuarantined(s, f)
      else Fetched(s, f, Scanned(s.b.rows, s.cfg.batch, fault))
    case Writing => if ok then Written(s) else s.(k := FailedAt(s, SinkError, AfterDeliver))
    case Ack =>
      if !ok then s.(k := FailedAt(s, StorageError, AfterDeliver))
      else if |Removed(s.b.rows, s.k.w.batch)| == |s.k.w.batch| then Acknowledged(s)
      else Misacknowledged(s)
    case PurgeStore => if ok then Purged(s) else PurgeFailed(s)
  }

  function WorkerNext(s: State, ok: bool, fault: FetchFault): State {
    if Moves(s.k.w.pc) then MovingNext(s, ok, fault) else s.(k := QuietNext(s, ok))
  }

  function Loses(f: Fate, es: seq<Event>): Fate {
    f.(lost := f.lost + IdSet(es))
  }

  /** run()'s outermost handler: whatever the worker held in local variables is gone. */
  function WorkerDied(s: State): State {
    s.(b := s.b.(keep := [], hand := []),
       k := s.k.(w := s.k.w.(pc := Dying, batch := [], settle := 0),
                 flush := s.k.flush.(table := s.k.flush.table.(terminal := true))),
       run := s.run.(died := true),
       fate := Loses(s.fate, s.b.keep + s.b.hand))
  }

  /** The worker is inside purge_store. */
  predicate Purging(pc: WorkerPc) {
    pc.PurgeStore? || pc.PurgeReset?
  }

  predicate WorkerAlive(s: State) {
    !s.k.w.pc.Dying? && !s.k.w.pc.Exiting? && !s.k.w.pc.Exited?
  }

  // ---- consent ------------------------------------------------------------------------

  predicate StoreLocked(s: State) {
    s.k.w.pc.BoundaryGen? || s.k.w.pc.Insert?
  }

  predicate RevokeHoldsAdmission(c: ConsentCaller) {
    || c.pc.Bump? || c.pc.ClearQueue? || c.pc.ReleaseQueue? || c.pc.DiscardRetry?
    || c.pc.ReleaseRetry?
  }

  predicate AdmissionFree(s: State) {
    s.cl.p.pc.ProducerIdle? && !RevokeHoldsAdmission(s.cl.c)
  }

  function ConsentAt(cl: Callers, pc: ConsentPc): Callers {
    cl.(c := cl.c.(pc := pc))
  }

  function Revoked(s: State, target: Consent): State {
    s.(cl := s.cl.(consent := target, c := ConsentCaller(Bump, 0, false)),
       run := s.run.(boundary := |s.log.admitted|, revoked := true),
       log := s.log.(revokedBelow := |s.log.admitted|))
  }

  function Granting(s: State): State {
    s.(cl := s.cl.(c := ConsentCaller(if s.cl.purgeRequired then Mark else SetGranted, 0, true)))
  }

  function Bumped(s: State): State {
    s.(cl := ConsentAt(s.cl, ClearQueue).(gen := s.cl.gen + 1))
  }

  function QueueCleared(s: State): State {
    s.(b := s.b.(queue := []),
       cl := s.cl.(c := s.cl.c.(pc := ReleaseQueue, dropped := |s.b.queue|)),
       fate := ConsentDrops(s.fate, s.b.queue))
  }

  function QueueReleased(s: State): State {
    s.(k := Discard(s.k, s.cl.c.dropped),
       cl := s.cl.(session := Deactivate(s.cl.session), purgeRequired := true,
                   c := s.cl.c.(pc := DiscardRetry, dropped := 0)))
  }

  /** discard_in_flight: the retry buffer goes first, its capacity after it. */
  function RetryDiscarded(s: State): State {
    s.(b := s.b.(retry := []),
       cl := s.cl.(c := s.cl.c.(pc := ReleaseRetry, dropped := |s.b.retry|)),
       fate := ConsentDrops(s.fate, s.b.retry))
  }

  /** The release, and forget_errors, the last act under the admission lock. */
  function RetryReleased(s: State): State {
    s.(k := Discard(s.k, s.cl.c.dropped).(flush := s.k.flush.(pendingError := Ok)),
       cl := s.cl.(c := s.cl.c.(pc := Mark, dropped := 0)))
  }

  function Marked(s: State): State {
    s.(marker := true, cl := ConsentAt(s.cl, PurgeRows),
       log := s.log.(markBelow := |s.log.admitted|))
  }

  function CallerPurged(s: State): State {
    s.(marker := false, b := s.b.(rows := []),
       cl := ConsentAt(s.cl, ResetCount).(purgeRequired := false),
       log := s.log.(purgedBelow := |s.log.admitted|),
       fate := ConsentDrops(s.fate, s.b.rows))
  }

  /** run_purge failed: collection stays blocked, and the purge stays owed. */
  function CallerFailed(s: State): State {
    s.(cl := ConsentAt(s.cl, ConsentIdle))
  }

  function CallerReset(s: State): State {
    s.(k := s.k.(outstanding := 0),
       cl := ConsentAt(s.cl, if s.cl.c.granting then SetGranted else ConsentIdle))
  }

  function ConsentGranted(s: State): State {
    s.(cl := ConsentAt(s.cl, ConsentIdle).(consent := Granted),
       run := s.run.(caught := s.run.caught || (s.cl.consent != Granted && Purging(s.k.w.pc))))
  }

  function ConsentNext(s: State, ok: bool): State {
    match s.cl.c.pc
    case ConsentIdle => s
    case Bump => Bumped(s)
    case ClearQueue => QueueCleared(s)
    case ReleaseQueue => QueueReleased(s)
    case DiscardRetry => RetryDiscarded(s)
    case ReleaseRetry => RetryReleased(s)
    case Mark => if StoreLocked(s) then s else if ok then Marked(s) else CallerFailed(s)
    case PurgeRows => if StoreLocked(s) then s else if ok then CallerPurged(s) else CallerFailed(s)
    case ResetCount => CallerReset(s)
    case SetGranted => if AdmissionFree(s) then ConsentGranted(s) else s
  }

  // ---- producers ----------------------------------------------------------------------

  const MARKER_PAYLOAD := Payload(true, true)

  function ProducerAt(s: State, p: Producer): State {
    s.(cl := s.cl.(p := p))
  }

  /** A call of admit_locked. */
  function Admitting(p: Producer, kind: Kind, payload: Payload, next: Then): Producer {
    p.(pc := Gate, kind := kind, payload := payload, next := next)
  }

  /** track: the generation read on entry must still be in force under the lock. */
  predicate CanTrack(s: State, entryGen: nat) {
    AdmissionFree(s) && s.cl.gen == entryGen
  }

  predicate CanStart(s: State) {
    && AdmissionFree(s) && s.k.life.state == Running && s.cl.consent == Granted
    && !s.k.life.terminated
  }

  function Starting(s: State, player: string, nowMs: int): State {
    ProducerAt(s, s.cl.p.(pc := Reserve, previous := s.cl.session, player := player, nowMs := nowMs))
  }

  /** session_.begin and the admission of the start marker. */
  function FirstSession(s: State): State {
    s.(cl := s.cl.(session := Begin(s.log.sessions, s.cl.p.player, s.cl.p.nowMs),
                   p := Admitting(s.cl.p, SessionStart, MARKER_PAYLOAD, Started(false))),
       log := s.log.(sessions := s.log.sessions + 1))
  }

  /** reserve_locked(2). */
  predicate RoomForTwo(s: State) {
    s.k.outstanding + 2 <= s.cfg.cap && |s.b.queue| + 2 <= s.cfg.queueCap
  }

  predicate CanEnd(s: State) {
    && AdmissionFree(s) && s.k.life.state == Running && !s.k.life.terminated
    && s.cl.session.active
  }

  /** admit_locked refused the event: what its caller does to the session. */
  function AfterRefusal(p: Producer, session: Session): Session {
    match p.next
    case Return => session
    case EndSession => session
    case EndThenStart => p.previous
    case Started(replacing) => if replacing then Deactivate(session) else p.previous
  }

  function Refused(s: State): State {
    s.(cl := s.cl.(session := AfterRefusal(s.cl.p, s.cl.session), p := PRODUCER0))
  }

  predicate Admissible(s: State) {
    && s.k.life.state == Running && s.cl.consent == Granted && s.cl.session.active
    && s.k.outstanding < s.cfg.cap && |s.b.queue| < s.cfg.queueCap
  }

  function NewEvent(s: State): Event {
    Event(|s.log.admitted|, s.cl.ordinal + 1, s.cl.gen, s.cl.session.id, s.cl.session.sequence,
          s.cl.p.kind, s.cl.p.payload)
  }

  function Counted(s: State): State
    requires s.cl.session.active
  {
    s.(k := s.k.(outstanding := s.k.outstanding + 1),
       cl := s.cl.(session := Numbered(s.cl.session), ordinal := s.cl.ordinal + 1,
                   p := s.cl.p.(pc := Push, pend := [NewEvent(s)])))
  }

  /** try_push refused an event that was already counted and numbered. */
  function Uncounted(s: State): State
    requires s.cl.p.pend != []
  {
    var e := s.cl.p.pend[0];
    s.(k := s.k.(outstanding := Release(s.k.outstanding, 1)),
       cl := s.cl.(session := AfterRefusal(s.cl.p, Rollback(s.cl.session, e.session, e.sequence)),
                   p := PRODUCER0))
  }

  /** The event is in the queue; an end marker closes its session. */
  function Accepted(s: State): State {
    s.(b := s.b.(queue := s.b.queue + s.cl.p.pend),
       k := s.k.(stats := s.k.stats.(accepted := s.k.stats.accepted + 1)),
       cl := s.cl.(session := if s.cl.p.next.EndSession? then Deactivate(s.cl.session)
                              else s.cl.session,
                   p := PRODUCER0),
       log := s.log.(admitted := s.log.admitted + s.cl.p.pend))
  }

  /** The old session's end marker is in the queue; the new session begins. */
  function AcceptedThenStart(s: State): State {
    s.(b := s.b.(queue := s.b.queue + s.cl.p.pend),
       k := s.k.(stats := s.k.stats.(accepted := s.k.stats.accepted + 1)),
       cl := s.cl.(session := Begin(s.log.sessions, s.cl.p.player, s.cl.p.nowMs),
                   p := Admitting(s.cl.p, SessionStart, MARKER_PAYLOAD, Started(true)).(pend := [])),
       log := s.log.(admitted := s.log.admitted + s.cl.p.pend, sessions := s.log.sessions + 1))
  }

  function ProducerNext(s: State): State {
    match s.cl.p.pc
    case ProducerIdle => s
    case Reserve =>
      if !s.cl.session.active then FirstSession(s)
      else if RoomForTwo(s) then
        ProducerAt(s, Admitting(s.cl.p, SessionEnd, MARKER_PAYLOAD, EndThenStart))
      else ProducerAt(s, PRODUCER0)
    case Gate =>
      if s.k.life.terminated then Refused(s) else ProducerAt(s, s.cl.p.(pc := Checks))
    case Checks => if Admissible(s) then Counted(s) else Refused(s)
    case Push =>
      if s.cl.p.pend == [] then s
      else if |s.b.queue| >= s.cfg.queueCap then Uncounted(s)
      else if s.cl.p.next.EndThenStart? then AcceptedThenStart(s)
      else Accepted(s)
  }

  // ---- flush submission, shutdown, crash and reopening ---------------------------------

  /** Every ordinal up to this one has been published. */
  function Published(cl: Callers): nat {
    if cl.p.pend != [] && cl.ordinal > 0 then cl.ordinal - 1 else cl.ordinal
  }

  /** An ordinal read under the admission lock, now or earlier, becomes the barrier. */
  function BarrierRaised(s: State, ordinal: nat): State {
    s.(k := s.k.(flush := s.k.flush.(barrier := Max(s.k.flush.barrier, ordinal))))
  }

  function TokenIssued(s: State, ordinal: nat): State {
    s.(k := s.k.(flush := s.k.flush.(table := Issue(s.k.flush.table),
                                      captured := s.k.flush.captured + [ordinal])))
  }

  function InLife(s: State, life: Life): State {
    s.(k := s.k.(life := life))
  }

  /** What is left when the process is gone. */
  function Crashed(s: State): State {
    Down(s.cfg, s.b.rows, s.marker, s.log,
         Loses(s.fate, s.b.retry + (s.b.keep + (s.b.hand + s.b.queue))))
  }

  /** Rows found at opening belong to the new run's first generation. */
  function Restamp(es: seq<Event>): (r: seq<Event>)
    ensures |r| == |es|
    ensures forall i :: 0 <= i < |es| ==> r[i] == es[i].(gen := 0)
  {
    seq(|es|, i requires 0 <= i < |es| => es[i].(gen := 0))
  }

  /** Opening with granted consent and no purge owed. */
  function OpenedGranted(s: State): State {
    Down(s.cfg, Restamp(s.b.rows), false, s.log, s.fate).(
      up := true,
      cl := CALLERS0.(consent := Granted, ordinal := MaxOrdinal(s.b.rows)),
      k := CONTROL0.(outstanding := |s.b.rows|, life := Life(Running, false, false)),
      run := RUN0.(recovered := |s.b.rows|, condemned := s.log.markBelow))
  }

  /** A purge that is owed, or an opening without consent, empties the store first. */
  function OpenedEmpty(s: State, initial: Consent): State {
    Down(s.cfg, [], false,
         s.log.(revokedBelow := if initial == Granted then s.log.revokedBelow else |s.log.admitted|),
         ConsentDrops(s.fate, s.b.rows)).(
      up := true, cl := CALLERS0.(consent := initial),
      k := CONTROL0.(life := Life(Running, false, false)),
      run := RUN0.(boundary := if initial == Granted then 0 else |s.log.admitted|,
                   condemned := s.log.markBelow))
  }

  function NextUp(s: State, step: Step): State {
    match step
    case Work(ok, fault) => WorkerNext(s, ok, fault)
    case Dies => if WorkerAlive(s) then WorkerDied(s) else s
    case Revoke(target) =>
      if s.cl.c.pc.ConsentIdle? && AdmissionFree(s) && target != Granted then Revoked(s, target) else s
    case Grant => if s.cl.c.pc.ConsentIdle? then Granting(s) else s
    case Consenting(ok) => ConsentNext(s, ok)
    case Track(g, payload) =>
      if CanTrack(s, g) then ProducerAt(s, Admitting(s.cl.p, Custom, payload, Return)) else s
    case StartSession(player, nowMs) => if CanStart(s) then Starting(s, player, nowMs) else s
    case CloseSession =>
      if CanEnd(s) then ProducerAt(s, Admitting(s.cl.p, SessionEnd, MARKER_PAYLOAD, EndSession)) else s
    case Producing => ProducerNext(s)
    case RaiseBarrier(o) => if o <= Published(s.cl) then BarrierRaised(s, o) else s
    case IssueToken(o) => if o <= s.k.flush.barrier then TokenIssued(s, o) else s
    case BeginShutdown =>
      if AdmissionFree(s) && s.k.life.state != Stopped then InLife(s, s.k.life.(state := Stopping)) else s
    case RequestStop => InLife(s, s.k.life.(stop := true))
    case FinishShutdown =>
      if AdmissionFree(s) && s.k.flush.table.finished && s.k.life.state != Running
      then InLife(s, s.k.life.(state := Stopped)) else s
    case Crash => Crashed(s)
    case Open(_, _) => s
  }

  function NextDown(s: State, step: Step): State {
    if !step.Open? then s
    else if s.marker || step.initial != Granted then
      if step.purges then OpenedEmpty(s, step.initial) else s
    else OpenedGranted(s)
  }

  function Next(s: State, step: Step): State {
    if s.up then NextUp(s, step) else NextDown(s, step)
  }

  /** The state after a run of `steps` from `s`. */
  function Exec(s: State, steps: seq<Step>): State {
    if steps == [] then s else Next(Exec(s, steps[..|steps| - 1]), steps[|steps| - 1])
  }

  // ---- reachable states ----

  /** `run` goes from state to state by `steps`. */
  ghost predicate Path(run: seq<State>, steps: seq<Step>) {
    && |run| == |steps| + 1
    && forall i {:trigger steps[i]} :: 0 <= i < |steps| ==> run[i + 1] == Next(run[i], steps[i])
  }

  /** Some run goes from `s` to `t`. */
  ghost predicate Leads(s: State, t: State) {
    exists run, steps :: Path(run, steps) && run[0] == s && run[|run| - 1] == t
  }

  /** Some run from an empty database goes to `s`. */
  ghost predicate Reachable(s: State) {
    exists cfg :: ValidConfig(cfg) && Leads(Init(cfg), s)
  }

  lemma {:induction false} PathIsExec(run: seq<State>, steps: seq<Step>)
    requires Path(run, steps)
    ensures run[|run| - 1] == Exec(run[0], steps)
  {
    if steps != [] {
      var n := |steps| - 1;
      forall i | 0 <= i < n ensures run[..n + 1][i + 1] == Next(run[..n + 1][i], steps[..n][i]) {
        assert steps[..n][i] == steps[i];
      }
      PathIsExec(run[..n + 1], steps[..n]);
      assert steps[n] == steps[n];
    }
  }

  lemma {:induction false} ExecLeads(s: State, steps: seq<Step>)
    ensures Leads(s, Exec(s, steps))
  {
    var run := ExecPath(s, steps);
  }

  lemma {:induction false} ExecPath(s: State, steps: seq<Step>) returns (run: seq<State>)
    ensures Path(run, steps) && run[0] == s && run[|run| - 1] == Exec(s, steps)
  {
    if steps == [] {
      run := [s];
    } else {
      var n := |steps| - 1;
      var front := ExecPath(s, steps[..n]);
      run := front + [Exec(s, steps)];
      PathExtends(front, steps, Exec(s, steps));
    }
  }

  lemma PathExtends(front: seq<State>, steps: seq<Step>, last: State)
    requires steps != [] && Path(front, steps[..|steps| - 1])
    requires last == Next(front[|front| - 1], steps[|steps| - 1])
    ensures Path(front + [last], steps)
  {
    var n, run := |steps| - 1, front + [last];
    forall i | 0 <= i < |steps| ensures run[i + 1] == Next(run[i], steps[i]) {
      if i < n { assert steps[..n][i] == steps[i]; }
    }
  }

  lemma LeadsBy(s: State, t: State) returns (steps: seq<Step>)
    requires Leads(s, t)
    ensures t == Exec(s, steps)
  {
    var run, how :| Path(run, how) && run[0] == s && run[|run| - 1] == t;
    PathIsExec(run, how);
    steps := how;
  }

  lemma ReachedBy(s: State) returns (cfg: Config, steps: seq<Step>)
    requires Reachable(s)
    ensures ValidConfig(cfg) && s == Exec(Init(cfg), steps)
  {
    cfg :| ValidConfig(cfg) && Leads(Init(cfg), s);
    steps := LeadsBy(Init(cfg), s);
  }

  lemma ExecReachable(cfg: Config, steps: seq<Step>)
    requires ValidConfig(cfg)
    ensures Reachable(Exec(Init(cfg), steps))
  {
    ExecLeads(Init(cfg), steps);
  }

  lemma StepReachable(s: State, step: Step)
    requires Reachable(s)
    ensures Reachable(Next(s, step))
  {
    var cfg, steps := ReachedBy(s);
    assert (steps + [step])[..|steps|] == steps;
    ExecReachable(cfg, steps + [step]);
  }

  lemma InitReachable(cfg: Config)
    requires ValidConfig(cfg)
    ensures Reachable(Init(cfg))
  {
    ExecReachable(cfg, []);
  }
}
