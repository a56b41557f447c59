/**
  * The drain loop needs the store's count: as long as it keeps failing and a producer keeps
  * sending, a pass goes round for ever, with nothing at or below its barrier left.
  */
module PipelineSpin {
  import opened Events
  import opened StoreSpec
  import opened Pipeline
  import opened PipelineFlow
  import opened PipelineOrder
  import opened PipelineDrain
  import opened PipelineDrainSteps
  import opened PipelineDrainRuns
  import opened PipelineSingle
  import opened PipelineWitness

  /** The iteration under way has taken an event. */
  predicate Going(w: Worker) {
    && !w.pass.final && w.pass.barrier >= 1
    && (Iterating(w.pc) ==> w.pass.draining)
    && (Iterating(w.pc) && !w.pc.Pop? ==> w.pass.moved)
  }

  /** A producer is on its way to push the next event, while the worker is about to drain. */
  predicate Sending(p: Producer, w: Worker, b: Buffers, out: nat) {
    && w.pc.Pop? && b == NONE && p.next == Return && p.payload == MARKER_PAYLOAD
    && (|| ((p.pc.Gate? || p.pc.Checks?) && p.pend == [] && out == 0)
        || (p.pc.Push? && One(p.pend) && out == 1))
  }

  /** Serving, with a flush that waits for its answer. */
  predicate Awaited(s: State) {
    Serving(s) && s.k.flush.table.done < s.k.flush.table.issued
  }

  predicate Spinning(s: State) {
    && Awaited(s) && s.cl.session.active && Going(s.k.w)
    && (if s.cl.p == PRODUCER0 then Place(s.k.w, s.b, s.k.outstanding)
        else Sending(s.cl.p, s.k.w, s.b, s.k.outstanding))
  }

  // ---- the worker goes on ----

  /** The worker and what it holds after a step. */
  predicate GoesOn(k: Control, k': Control, b': Buffers) {
    && Going(k'.w) && Place(k'.w, b', k'.outstanding)
    && k'.life == k.life && k'.flush.table == k.flush.table
  }

  lemma ChecksSpin(s: State)
    requires Going(s.k.w) && Place(s.k.w, s.b, s.k.outstanding) && Checking(s.k.w.pc)
    ensures GoesOn(s.k, QuietNext(s, !s.k.w.pc.CheckStore?), s.b)
  {
    match s.k.w.pc
    case CheckQueue => QueueSpins(s);
    case CheckRetry => RetrySpins(s);
    case CheckStore => StoreSpins(s);
    case DrainSize => assert QuietNext(s, true) == DrainAgain(s);
  }

  lemma QueueSpins(s: State)
    requires Going(s.k.w) && Place(s.k.w, s.b, s.k.outstanding) && s.k.w.pc.CheckQueue?
    ensures GoesOn(s.k, TestedQueue(s), s.b)
  {}

  lemma RetrySpins(s: State)
    requires Going(s.k.w) && Place(s.k.w, s.b, s.k.outstanding) && s.k.w.pc.CheckRetry?
    ensures GoesOn(s.k, TestedRetry(s), s.b)
  {}

  lemma StoreSpins(s: State)
    requires Going(s.k.w) && Place(s.k.w, s.b, s.k.outstanding) && s.k.w.pc.CheckStore?
    ensures GoesOn(s.k, TestedStore(s, false), s.b)
  {}

  lemma AfterSpins(s: State)
    requires Going(s.k.w) && Place(s.k.w, s.b, s.k.outstanding) && s.k.w.pc.AfterDeliver?
    ensures GoesOn(s.k, QuietNext(s, true), s.b)
  {}

  lemma FurtherSpins(k: Control, k': Control, b': Buffers)
    requires Going(k.w) && Iterating(k.w.pc) && Further(k, k', b') && !k'.w.pc.Pop?
    ensures GoesOn(k, k', b')
  {}

  lemma QuietSpins(s: State)
    requires Going(s.k.w) && Place(s.k.w, s.b, s.k.outstanding) && !Moves(s.k.w.pc)
    requires s.cl.consent == Granted && s.cl.gen == 0
    ensures GoesOn(s.k, QuietNext(s, !s.k.w.pc.CheckStore?), s.b)
  {
    if Checking(s.k.w.pc) {
      ChecksSpin(s);
    } else if s.k.w.pc.AfterDeliver? {
      AfterSpins(s);
    } else {
      if s.k.w.pc.SettleAck? { Settles(s); } else { ReadsOn(s); }
      QuietFlow(s, true);
      FurtherSpins(s.k, QuietNext(s, true), s.b);
    }
  }

  lemma MovingSpins(s: State)
    requires Going(s.k.w) && Place(s.k.w, s.b, s.k.outstanding) && Moves(s.k.w.pc) && s.cfg.batch >= 1
    requires s.k.w.pc.Pop? ==> s.b.queue != []
    ensures var s' := MovingNext(s, true, NO_FAULT); GoesOn(s.k, s'.k, s'.b)
  {
    MovesOn(s);
    MovingFlow(s, true, NO_FAULT);
    var s' := MovingNext(s, true, NO_FAULT);
    FurtherSpins(s.k, s'.k, s'.b);
  }

  lemma WorkSpins(s: State)
    requires Spinning(s) && s.cl.p == PRODUCER0 && (s.k.w.pc.Pop? ==> s.b.queue != [])
    ensures Spinning(WorkerNext(s, !s.k.w.pc.CheckStore?, NO_FAULT))
  {
    WorkSpares(s, !s.k.w.pc.CheckStore?, NO_FAULT);
    if Moves(s.k.w.pc) { MovingSpins(s); } else { QuietSpins(s); }
  }

  // ---- a producer sends ----

  lemma TrackSpins(s: State)
    requires Spinning(s) && s.cl.p == PRODUCER0 && s.k.w.pc.Pop? && s.b.queue == []
    ensures Spinning(Next(s, Track(0, MARKER_PAYLOAD)))
  {}

  lemma SendSpins(s: State)
    requires Spinning(s) && s.cl.p != PRODUCER0
    ensures Spinning(ProducerNext(s))
  {
    match s.cl.p.pc
    case Gate =>
    case Checks => assert ProducerNext(s) == Counted(s);
    case Push =>
      assert ProducerNext(s) == Accepted(s);
      assert [] + s.cl.p.pend == s.cl.p.pend;
  }

  // ---- the run ----

  /** Whose turn it is. Only counts fail. */
  function Turn(s: State): Step {
    if s.cl.p != PRODUCER0 then Producing
    else if s.k.w.pc.Pop? && s.b.queue == [] then Track(0, MARKER_PAYLOAD)
    else Work(!s.k.w.pc.CheckStore?, NO_FAULT)
  }

  lemma TurnSpins(s: State)
    requires Spinning(s)
    ensures Spinning(Next(s, Turn(s)))
  {
    if s.cl.p != PRODUCER0 {
      SendSpins(s);
    } else if s.k.w.pc.Pop? && s.b.queue == [] {
      TrackSpins(s);
    } else {
      WorkSpins(s);
    }
  }

  lemma SpinningAllowed(s: State)
    requires Spinning(s)
    ensures InDrain(s.k.w) && Allowed(Turn(s))
  {}

  /** The turns until the worker's next one. */
  function Wait(s: State): nat {
    match s.cl.p.pc
    case Push => 1
    case Checks => 2
    case Gate => 3
    case _ => if s.k.w.pc.Pop? && s.b.queue == [] then 4 else 0
  }

  lemma WaitShrinks(s: State)
    requires Spinning(s)
    ensures Wait(s) == 0 ==> Turn(s).Work?
    ensures Wait(s) > 0 ==> Wait(Next(s, Turn(s))) == Wait(s) - 1
  {
    if s.cl.p.pc.Push? { assert ProducerNext(s) == Accepted(s); }
  }

  /** Turn after turn, for ever. */
  ghost predicate TakesTurns(run: nat -> State) {
    Spinning(run(0)) && forall n: nat :: run(n + 1) == Next(run(n), Turn(run(n)))
  }

  lemma RunSpins(run: nat -> State, n: nat)
    requires TakesTurns(run)
    ensures Spinning(run(n))
  {
    for i := 0 to n
      invariant Spinning(run(i))
    {
      TurnSpins(run(i));
    }
  }

  lemma {:induction false} CountsDown(wait: nat -> nat, works: nat -> bool, i: nat)
    requires forall n: nat :: if wait(n) == 0 then works(n) else wait(n + 1) == wait(n) - 1
    ensures works(i + wait(i))
    decreases wait(i)
  {
    if wait(i) > 0 { CountsDown(wait, works, i + 1); }
  }

  lemma RunWaits(run: nat -> State, n: nat)
    requires TakesTurns(run)
    ensures if Wait(run(n)) == 0 then Turn(run(n)).Work? else Wait(run(n + 1)) == Wait(run(n)) - 1
  {
    RunSpins(run, n);
    WaitShrinks(run(n));
  }

  lemma SpinsAt(run: nat -> State, n: nat)
    requires TakesTurns(run)
    ensures var s := run(n);
            && InDrain(s.k.w) && Allowed(Turn(s)) && s.k.flush.table.done < s.k.flush.table.issued
            && (Turn(s).Work? ==> Turn(s).fault == NO_FAULT && (Turn(s).ok <==> !s.k.w.pc.CheckStore?))
  {
    RunSpins(run, n);
    SpinningAllowed(run(n));
  }

  // ---- getting there ----

  lemma TokenTaken(s: State)
    requires Rested(s) && s.k == CONTROL0.(life := Life(Running, false, false))
    ensures var t := Next(Next(s, IssueToken(0)), WORK);
            Rested(t) && Awaited(t) && t.k.w.pc.Pop? && t.k.w.pass.pending && !t.k.w.pass.draining
  {
    var a := Next(s, IssueToken(0));
    assert a == TokenIssued(s, 0);
    assert Next(a, WORK) == a.(k := LatchRequest(a));
  }

  lemma BarrierNext(s: State, r: State)
    requires Rested(r) && Awaited(r) && r.k.w.pass.pending && !r.k.w.pass.draining && Passing(s, r, AfterDeliver)
    ensures Rested(Next(s, WORK)) && Awaited(Next(s, WORK)) && Next(s, WORK).k.w.pc.LoadBarrier?
  {}

  /** A pass for one token is about to load its barrier, with nothing held. */
  lemma PassStarts(cfg: Config) returns (s: State)
    requires ValidConfig(cfg)
    ensures Reachable(s) && Rested(s) && Awaited(s) && s.k.w.pc.LoadBarrier?
  {
    s := Opened(cfg);
    TokenTaken(s);
    StepReachable(s, IssueToken(0));
    StepReachable(Next(s, IssueToken(0)), WORK);
    var r := Next(Next(s, IssueToken(0)), WORK);
    s := EmptyTurn(r);
    BarrierNext(s, r);
    StepReachable(s, WORK);
    s := Next(s, WORK);
  }

  lemma BarrierUp(s: State, k: Control)
    requires Begun(s, k)
    ensures var t := Next(s, RaiseBarrier(1));
            && t == s.(k := s.k.(flush := s.k.flush.(barrier := t.k.flush.barrier))) && t.k.flush.barrier >= 1
  {
    assert Next(s, RaiseBarrier(1)) == BarrierRaised(s, 1);
  }

  lemma LoopEntered(s: State)
    requires Awaited(s) && s.cl.p == PRODUCER0 && s.cl.session.active && InQueue(s.b, s.k.outstanding)
    requires s.b.queue[0].ordinal == 1 && s.k.w.pc.LoadBarrier? && s.k.flush.barrier >= 1
    ensures var t := Next(s, WORK); Spinning(t) && t.k.w.pc.CheckQueue? && t.cl.p == PRODUCER0
  {
    assert Next(s, WORK) == s.(k := BarrierLoaded(s));
  }

  lemma OnlyQueue(b: Buffers)
    requires b == NONE.(queue := b.queue)
    ensures Held(b) == b.queue
  {}

  lemma FewStorable(held: seq<Event>)
    requires held == [] || One(held)
    ensures AllStorable(held, PRODUCER0)
  {}

  lemma SpinningHead(s: State)
    requires Awaited(s) && Going(s.k.w) && s.k.w.pc.CheckQueue? && s.cl.p == PRODUCER0
    requires Place(s.k.w, s.b, s.k.outstanding)
    ensures AtLoopHead(s)
  {
    var held := Held(s.b);
    assert held == [] || One(held) by { OnlyQueue(s.b); }
    FewStorable(held);
  }

  lemma HeadReached(cfg: Config) returns (s: State)
    requires ValidConfig(cfg)
    ensures Reachable(s) && AtLoopHead(s) && Spinning(s)
  {
    var rested := PassStarts(cfg);
    s := SessionStarts(rested);
    BarrierUp(s, rested.k);
    StepReachable(s, RaiseBarrier(1));
    s := Next(s, RaiseBarrier(1));
    LoopEntered(s);
    StepReachable(s, WORK);
    s := Next(s, WORK);
    SpinningHead(s);
  }

  function SpinRun(s: State, n: nat): State {
    if n == 0 then s else var t := SpinRun(s, n - 1); Next(t, Turn(t))
  }

  lemma SpinTakesTurns(s: State, run: nat -> State)
    requires Spinning(s) && forall n: nat :: run(n) == SpinRun(s, n)
    ensures TakesTurns(run)
  {
    forall n: nat ensures run(n + 1) == Next(run(n), Turn(run(n))) {
      assert SpinRun(s, n + 1) == Next(SpinRun(s, n), Turn(SpinRun(s, n)));
    }
  }

  lemma WaitsAreFair(schedule: nat -> Step, turn: nat -> nat, wait: nat -> nat)
    requires forall n: nat :: turn(n) == n + wait(n)
    requires forall n: nat :: if wait(n) == 0 then schedule(n).Work? else wait(n + 1) == wait(n) - 1
    ensures Fair(schedule, turn)
  {
    forall i: nat ensures i <= turn(i) && schedule(turn(i)).Work? {
      WaitEnds(schedule, wait, i);
    }
  }

  lemma WaitEnds(schedule: nat -> Step, wait: nat -> nat, i: nat)
    requires forall n: nat :: if wait(n) == 0 then schedule(n).Work? else wait(n + 1) == wait(n) - 1
    ensures schedule(i + wait(i)).Work?
  {
    var works := (n: nat) => schedule(n).Work?;
    CountsDown(wait, works, i);
    assert works(i + wait(i));
  }

  lemma TurnsAreFair(run: nat -> State, schedule: nat -> Step, turn: nat -> nat, wait: nat -> nat)
    requires TakesTurns(run)
    requires forall n: nat :: schedule(n) == Turn(run(n))
    requires forall n: nat :: wait(n) == Wait(run(n)) && turn(n) == n + wait(n)
    ensures Fair(schedule, turn)
  {
    forall n: nat ensures if wait(n) == 0 then schedule(n).Work? else wait(n + 1) == wait(n) - 1 {
      RunWaits(run, n);
    }
    WaitsAreFair(schedule, turn, wait);
  }

  /** A fair run that stays in the loop for ever: consent fixed, the worker alive, every payload
      storable, every insert, fetch, write and acknowledgment successful, and only counts
      failing; the flush is never answered. */
  lemma CountFailureSpins(cfg: Config) returns (run: nat -> State, schedule: nat -> Step, turn: nat -> nat)
    requires ValidConfig(cfg)
    ensures Reachable(run(0)) && AtLoopHead(run(0)) && IsRun(run, schedule) && Fair(schedule, turn)
    ensures AllAllowed(schedule) && NeverLeaves(run)
    ensures forall n: nat :: schedule(n).Work? ==>
              schedule(n).fault == NO_FAULT && (schedule(n).ok <==> !run(n).k.w.pc.CheckStore?)
    ensures forall n: nat :: run(n).k.flush.table.done < run(n).k.flush.table.issued
  {
    var s := HeadReached(cfg);
    run := (n: nat) => SpinRun(s, n);
    SpinTakesTurns(s, run);
    var r := run;
    schedule := (n: nat) => Turn(r(n));
    turn := (n: nat) => n + Wait(r(n));
    var wait := (n: nat) => Wait(r(n));
    TurnsAreFair(run, schedule, turn, wait);
    forall n: nat
      ensures InDrain(run(n).k.w) && Allowed(schedule(n)) && run(n).k.flush.table.done < run(n).k.flush.table.issued
      ensures schedule(n).Work? ==>
                schedule(n).fault == NO_FAULT && (schedule(n).ok <==> !run(n).k.w.pc.CheckStore?)
    {
      SpinsAt(run, n);
    }
  }
}
