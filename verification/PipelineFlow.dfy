/** The worker's control flow, and what its steps leave alone. */
module PipelineFlow {
  import opened Events
  import opened StoreSpec
  import opened Pipeline

  /** `pc'` can come directly after `pc`. */
  predicate Follows(pc: WorkerPc, pc': WorkerPc) {
    match pc
    case Top => pc'.Pop?
    case Pop => pc'.TakeRetry?
    case TakeRetry => pc'.LatchGen? || pc'.DeliverConsent?
    case LatchGen => pc'.ReadConsent?
    case ReadConsent => pc'.Sift? || pc'.DiscardBatch?
    case DiscardBatch => pc'.PurgeStore?
    case Sift => pc'.Sift? || pc'.DeliverConsent? || pc'.BoundaryConsent?
    case BoundaryConsent => pc'.BoundaryGen? || pc'.DiscardKeep?
    case BoundaryGen => pc'.Insert? || pc'.DiscardKeep?
    case Insert => pc'.DeliverConsent? || pc'.Hold?
    case DiscardKeep => pc'.DeliverConsent?
    case Hold => pc'.DeliverConsent?
    case DeliverConsent => pc'.Fetch? || pc'.PurgeStore?
    case Fetch => pc'.SettleQuarantine? || pc'.LatchDeliveryGen? || pc'.AfterDeliver?
    case SettleQuarantine => pc'.LatchDeliveryGen? || pc'.AfterDeliver?
    case LatchDeliveryGen => pc'.PreWriteConsent?
    case PreWriteConsent => pc'.StartWrite? || pc'.PurgeStore?
    case StartWrite => pc'.Writing?
    case Writing => pc'.RecheckConsent? || pc'.AfterDeliver?
    case RecheckConsent => pc'.RecheckGen? || pc'.PurgeStore?
    case RecheckGen => pc'.Ack? || pc'.PurgeStore?
    case Ack => pc'.SettleAck? || pc'.AfterDeliver?
    case SettleAck => pc'.DeliverConsent?
    case PurgeStore => pc'.PurgeReset? || pc'.DeliverConsent? || pc'.AfterDeliver?
    case PurgeReset => pc'.DeliverConsent? || pc'.AfterDeliver?
    case AfterDeliver => pc'.LoadBarrier? || pc'.LoopEnd? || pc'.FlushSink? || pc'.CheckQueue?
    case LoadBarrier => pc'.CheckQueue?
    case DrainSize => pc'.Pop?
    case CheckQueue => pc'.RecordOutcome? || pc'.DrainSize? || pc'.FlushSink? || pc'.CheckRetry?
    case CheckRetry => pc'.RecordOutcome? || pc'.DrainSize? || pc'.CheckStore?
    case CheckStore => pc'.RecordOutcome? || pc'.DrainSize? || pc'.FlushSink?
    case FlushSink => pc'.TakeOutcome?
    case TakeOutcome => pc'.CheckQueue?
    case RecordOutcome => pc'.LoopEnd?
    case LoopEnd => pc'.Top? || pc'.Exiting?
    case Dying => pc'.Exiting?
    case Exiting => pc'.Exited?
    case Exited => pc'.Exited?
  }

  lemma QuietFlow(s: State, ok: bool)
    requires !Moves(s.k.w.pc)
    ensures Follows(s.k.w.pc, QuietNext(s, ok).w.pc)
  {}

  /** A step that moves no event keeps the fetched batch as well. */
  lemma QuietBatch(s: State, ok: bool)
    requires !Moves(s.k.w.pc)
    ensures QuietNext(s, ok).w.batch == s.k.w.batch && QuietNext(s, ok).w.scanned == s.k.w.scanned
  {}

  lemma MovingFlow(s: State, ok: bool, fault: FetchFault)
    requires Moves(s.k.w.pc)
    ensures Follows(s.k.w.pc, MovingNext(s, ok, fault).k.w.pc)
  {}

  /** Other threads leave the worker alone, and take rows only all at once. */
  lemma OthersSpareWorker(s: State, step: Step)
    requires s.up && !step.Work?
    ensures var s' := NextUp(s, step);
            s'.up ==>
              && (s'.k.w == s.k.w || s'.k.w.pc.Dying?)
              && (s'.b.rows == s.b.rows || s'.b.rows == [])
  {}

  lemma MovingCallers(s: State, ok: bool, fault: FetchFault)
    requires Moves(s.k.w.pc)
    ensures var s' := MovingNext(s, ok, fault);
            s'.cl == s.cl && s'.up == s.up && s'.run == s.run && s'.cfg == s.cfg
  {}

  lemma WorkSpares(s: State, ok: bool, fault: FetchFault)
    ensures var s' := WorkerNext(s, ok, fault);
            s'.cl == s.cl && s'.run == s.run && s'.up == s.up && s'.cfg == s.cfg
  {
    if Moves(s.k.w.pc) { MovingCallers(s, ok, fault); }
  }

  lemma ProducerSpares(s: State)
    ensures var s' := ProducerNext(s);
            s'.cl.c == s.cl.c && s'.cl.consent == s.cl.consent && s'.cl.gen == s.cl.gen
            && s'.k.w == s.k.w && s'.up == s.up && s'.run == s.run && s'.cfg == s.cfg
  {}

  lemma ProducerPushes(s: State)
    ensures var s' := ProducerNext(s);
            || s'.b == s.b
            || (&& s'.b == s.b.(queue := s.b.queue + s.cl.p.pend)
                && s'.cl.p.pend == [] && s'.k.outstanding == s.k.outstanding)
  {}

  lemma ProducerKeepsBuffers(s: State)
    ensures ProducerNext(s).b == s.b.(queue := ProducerNext(s).b.queue)
    ensures s.cl.consent != Granted && s.cl.p.pend == [] ==>
              ProducerNext(s).b == s.b && ProducerNext(s).cl.p.pend == []
    ensures |s.b.queue| + |s.cl.p.pend| <= s.cfg.queueCap ==>
              |ProducerNext(s).b.queue| + |ProducerNext(s).cl.p.pend| <= s.cfg.queueCap
    ensures ProducerNext(s).cl.purgeRequired == s.cl.purgeRequired
  {}

  /** A producer counts an event only below the limit. */
  lemma ProducerCounts(s: State)
    ensures ProducerNext(s).k.outstanding <= Max(s.k.outstanding, s.cfg.cap)
  {}

  lemma WorkerFrees(s: State, ok: bool, fault: FetchFault)
    ensures var s' := WorkerNext(s, ok, fault);
            s'.k.outstanding <= s.k.outstanding && |s'.b.queue| <= |s.b.queue|
  {}
}
