/**
  * The drain loop of a flush pass without consent: nothing is admitted, so the queue stays
  * empty, and one iteration, which discards and purges, makes no progress and breaks out.
  */
module PipelineDrainOff {
  import opened Events
  import opened StoreSpec
  import opened Pipeline
  import opened PipelineFlow
  import opened PipelineDrain
  import opened PipelineDrainSteps

  /** How far the worker is from leaving the loop. */
  function OffRank(w: Worker): nat {
    match w.pc
    case CheckQueue => 15
    case CheckRetry => 14
    case CheckStore => 13
    case DrainSize => 12
    case Pop => 11
    case TakeRetry => 10
    case LatchGen => 9
    case ReadConsent => 8
    case DiscardBatch => 7
    case PurgeStore => if w.fromProcess then 6 else 3
    case PurgeReset => if w.fromProcess then 5 else 2
    case DeliverConsent => 4
    case AfterDeliver => 1
    case _ => 0
  }

  /** The iteration under way has moved nothing and, once delivering, delivered nothing. */
  predicate OffOk(w: Worker) {
    && !w.pass.final && OffRank(w) > 0
    && (OffRank(w) <= 11 ==> w.pass.draining && w.pass.queueBefore == 0)
    && (OffRank(w) <= 10 ==> !w.pass.moved)
    && (OffRank(w) <= 4 ==> !w.pass.delivered)
  }

  predicate OffDraining(s: State) {
    Safe(s) && Steady(s) && s.cl.consent != Granted && OffOk(s.k.w)
  }

  lemma OffChecks(s: State, ok: bool)
    requires OffOk(s.k.w) && s.b.queue == [] && Checking(s.k.w.pc)
    ensures var w := QuietNext(s, ok).w;
            InDrain(w) ==> OffOk(w) && OffRank(w) < OffRank(s.k.w)
  {}

  lemma OffBreaks(s: State)
    requires OffOk(s.k.w) && s.k.w.pc.AfterDeliver?
    ensures !InDrain(AfterDelivery(s).w)
  {}

  lemma OffQuiet(s: State, ok: bool)
    requires OffOk(s.k.w) && s.cl.consent != Granted && s.b.queue == [] && !Moves(s.k.w.pc)
    ensures var w := QuietNext(s, ok).w;
            InDrain(w) ==> OffOk(w) && OffRank(w) < OffRank(s.k.w)
  {
    if Checking(s.k.w.pc) {
      OffChecks(s, ok);
    } else if s.k.w.pc.AfterDeliver? {
      OffBreaks(s);
    } else {
      var k := QuietNext(s, ok);
      match s.k.w.pc
      case LatchGen => assert k == LatchIncoming(s);
      case ReadConsent => assert k == At(s, DiscardBatch);
      case DeliverConsent => assert k == IfGranted(s, Fetch);
      case PurgeReset => assert k == CountReset(s);
    }
  }

  lemma OffMoving(s: State, ok: bool, fault: FetchFault)
    requires OffOk(s.k.w) && s.b.queue == [] && Moves(s.k.w.pc)
    ensures var w := MovingNext(s, ok, fault).k.w;
            OffOk(w) && OffRank(w) < OffRank(s.k.w)
  {
    match s.k.w.pc
    case Pop => assert MovingNext(s, ok, fault) == Drain(s);
    case TakeRetry =>
    case DiscardBatch => assert MovingNext(s, ok, fault) == DropIncoming(s);
    case PurgeStore =>
  }

  lemma OffWork(s: State, ok: bool, fault: FetchFault)
    requires OffDraining(s) && InDrain(WorkerNext(s, ok, fault).k.w)
    ensures OffDraining(WorkerNext(s, ok, fault)) && OffRank(WorkerNext(s, ok, fault).k.w) < OffRank(s.k.w)
  {
    WorkSafe(s, ok, fault);
    WorkSpares(s, ok, fault);
    if Moves(s.k.w.pc) { OffMoving(s, ok, fault); } else { OffQuiet(s, ok); }
  }

  lemma OffOther(s: State, step: Step)
    requires OffDraining(s) && Allowed(step) && !step.Work?
    ensures OffDraining(Next(s, step)) && Next(s, step).k.w == s.k.w
  {
    SafeStep(s, step);
    if step.Producing? {
      ProducerSpares(s);
    } else {
      OthersKeep(s, step);
      OthersKeepCallers(s, step);
    }
  }
}
