/**
  * Replacing a live session: start_session reserves room for two markers, admits the end
  * marker of the old session and then the start marker of the new one.
  */
module PipelineReplacement {
  import opened Events
  import opened StoreSpec
  import opened Sessions
  import opened Pipeline
  import opened PipelineFlow
  import opened PipelineOrder
  import opened PipelineSessions

  predicate AdmissionOpen(life: Life, consent: Consent) {
    life.state == Running && consent == Granted
  }

  /** The room that is reserved at each point of an admission. */
  predicate Reserved(p: Producer, outstanding: nat, queued: nat, cfg: Config) {
    && (p.pc.Push? ==> queued < cfg.queueCap)
    && (p.next.EndThenStart? && (p.pc.Gate? || p.pc.Checks?) ==>
          outstanding + 2 <= cfg.cap && queued + 2 <= cfg.queueCap)
    && (p.next.EndThenStart? && p.pc.Push? ==>
          outstanding + 1 <= cfg.cap && queued + 2 <= cfg.queueCap)
    && (p.next == Started(true) && (p.pc.Gate? || p.pc.Checks?) ==>
          outstanding + 1 <= cfg.cap && queued + 1 <= cfg.queueCap)
  }

  predicate Replacing(p: Producer) {
    !p.pc.ProducerIdle? && !p.pc.Reserve? && (p.next.EndThenStart? || p.next == Started(true))
  }

  /** Nobody else can close admission while a producer holds the lock. */
  predicate LockedOpen(p: Producer, life: Life, consent: Consent) {
    Replacing(p) || p.pc.Reserve? ==> AdmissionOpen(life, consent)
  }

  predicate DeathOk(died: bool, life: Life, pc: WorkerPc) {
    (life.terminated || pc.Dying? ==> died)
  }

  /** Between the markers, the last admitted event is the old session's end marker, and the
      ordinal counter has not moved. */
  predicate EndMarkerLast(p: Producer, ordinal: nat, admitted: seq<Event>) {
    p.next == Started(true) && (p.pc.Gate? || p.pc.Checks? || p.pc.Push?) ==>
      && admitted != []
      && var e := admitted[|admitted| - 1];
         && e.kind.SessionEnd? && e.session == p.previous.id
         && e.ordinal == ordinal - |p.pend|
  }

  predicate ReplaceOk(s: State) {
    s.up ==>
      && Reserved(s.cl.p, s.k.outstanding, |s.b.queue|, s.cfg)
      && LockedOpen(s.cl.p, s.k.life, s.cl.consent)
      && DeathOk(s.run.died, s.k.life, s.k.w.pc)
      && EndMarkerLast(s.cl.p, s.cl.ordinal, s.log.admitted)
  }

  // ---- the worker frees room, never takes it ----

  lemma WorkerLife(s: State, ok: bool, fault: FetchFault)
    requires DeathOk(s.run.died, s.k.life, s.k.w.pc)
    ensures var s' := WorkerNext(s, ok, fault);
            s'.k.life.state == s.k.life.state && s'.cfg == s.cfg
            && DeathOk(s'.run.died, s'.k.life, s'.k.w.pc)
  {
    if Moves(s.k.w.pc) { MovingFlow(s, ok, fault); } else { QuietFlow(s, ok); }
  }

  lemma ReplaceWorker(s: State, ok: bool, fault: FetchFault)
    requires ReplaceOk(s) && s.up
    ensures ReplaceOk(WorkerNext(s, ok, fault))
  {
    WorkerFrees(s, ok, fault);
    WorkerLife(s, ok, fault);
    WorkerKeepsSessions(s, ok, fault);
  }

  // ---- producers ----

  lemma ReplacePushed(s: State)
    requires Order(s) && SessionsOk(s) && ReplaceOk(s) && s.up && s.cl.p.pc.Push?
    ensures s.cl.p.next.EndThenStart? ==> ReplaceOk(AcceptedThenStart(s))
    ensures !s.cl.p.next.EndThenStart? ==> ReplaceOk(Accepted(s))
  {}

  lemma ReplaceChecked(s: State)
    requires ReplaceOk(s) && s.up && s.cl.p.pc.Checks? && Admissible(s) && s.cl.p.pend == []
    ensures ReplaceOk(Counted(s))
  {}

  lemma ReplaceProducer(s: State)
    requires Order(s) && SessionsOk(s) && ReplaceOk(s) && s.up
    ensures ReplaceOk(ProducerNext(s))
  {
    match s.cl.p.pc
    case ProducerIdle =>
    case Reserve =>
    case Gate =>
    case Checks => if Admissible(s) { ReplaceChecked(s); }
    case Push => ReplacePushed(s);
  }

  // ---- other steps ----

  lemma ConsentFrees(s: State, ok: bool)
    ensures var s' := ConsentNext(s, ok);
            s'.k.outstanding <= s.k.outstanding && |s'.b.queue| <= |s.b.queue|
  {}

  lemma ConsentSpares(s: State, ok: bool)
    ensures var s' := ConsentNext(s, ok);
            && s'.cl.p == s.cl.p && s'.cl.ordinal == s.cl.ordinal
            && (!s.cl.p.pc.ProducerIdle? ==> s'.cl.consent == s.cl.consent)
  {}

  lemma ConsentSparesWorker(s: State, ok: bool)
    ensures var s' := ConsentNext(s, ok);
            && s'.k.life == s.k.life && s'.k.w == s.k.w && s'.run.died == s.run.died && s'.cfg == s.cfg
            && s'.log.admitted == s.log.admitted
  {}

  lemma ReplaceConsent(s: State, ok: bool)
    requires ReplaceOk(s) && s.up
    ensures ReplaceOk(ConsentNext(s, ok))
  {
    ConsentFrees(s, ok);
    ConsentSpares(s, ok);
    ConsentSparesWorker(s, ok);
  }

  lemma ReplaceOther(s: State, step: Step)
    requires Order(s) && ReplaceOk(s) && s.up
    requires !step.Work? && !step.Producing? && !step.Consenting? && !step.Crash?
    ensures ReplaceOk(NextUp(s, step))
  {}

  lemma ReplaceUp(s: State, step: Step)
    requires Order(s) && SessionsOk(s) && ReplaceOk(s) && s.up
    ensures ReplaceOk(NextUp(s, step))
  {
    match step
    case Work(ok, fault) => ReplaceWorker(s, ok, fault);
    case Producing => ReplaceProducer(s);
    case Consenting(ok) => ReplaceConsent(s, ok);
    case Crash =>
    case _ => ReplaceOther(s, step);
  }

  lemma ReplaceDown(s: State, step: Step)
    requires !s.up
    ensures ReplaceOk(Next(s, step))
  {}

  lemma {:induction false} ReplaceAlways(cfg: Config, steps: seq<Step>)
    requires ValidConfig(cfg)
    ensures ReplaceOk(Exec(Init(cfg), steps))
  {
    if steps != [] {
      var front := steps[..|steps| - 1];
      ReplaceAlways(cfg, front);
      OrderAlways(cfg, front);
      SessionsAlways(cfg, front);
      var s := Exec(Init(cfg), front);
      if s.up { ReplaceUp(s, steps[|steps| - 1]); } else { ReplaceDown(s, steps[|steps| - 1]); }
    }
  }

  // ---- what follows ----

  /** An event that was counted always finds room in the queue. */
  lemma PushNeverFails(s: State)
    requires Reachable(s) && s.up && s.cl.p.pc.Push?
    ensures |s.b.queue| < s.cfg.queueCap
  {
    var cfg, steps := ReachedBy(s);
    ReplaceAlways(cfg, steps);
  }

  /** Once both places are reserved, nothing but the worker's death keeps the two markers from
      being admitted, one directly after the other; a refusal of the first restores the old
      session as it was and leaves the log alone. */
  lemma ReplacementIsAtomic(s: State)
    requires Reachable(s) && s.up && Replacing(s.cl.p)
    ensures var s', p := ProducerNext(s), s.cl.p;
            && (p.pc.Gate? ==>
                  if s.run.died && s.k.life.terminated then s'.cl.p.pc.ProducerIdle? else s'.cl.p.pc.Checks?)
            && (p.pc.Checks? ==> s'.cl.p.pc.Push? && s'.cl.p.next == p.next)
            && (p.pc.Push? ==> s'.log.admitted == s.log.admitted + p.pend)
            && (p.pc.Push? && p.next.EndThenStart? ==>
                  s'.cl.p.next == Started(true) && |p.pend| == 1
                  && p.pend[0].kind.SessionEnd? && p.pend[0].session == p.previous.id)
            && (p.next.EndThenStart? && s'.cl.p.pc.ProducerIdle? ==>
                  s'.cl.session == p.previous == s.cl.session && s'.log == s.log)
  {
    var cfg, steps := ReachedBy(s);
    ReplaceAlways(cfg, steps);
    OrderAlways(cfg, steps);
    SessionsAlways(cfg, steps);
  }

  /** The start marker of a replacement carries the ordinal right after the end marker's. */
  lemma MarkersAreConsecutive(s: State)
    requires Reachable(s) && s.up && s.cl.p.pc.Push? && s.cl.p.next == Started(true)
    ensures && s.log.admitted != [] && |s.cl.p.pend| == 1
            && var ended, started := s.log.admitted[|s.log.admitted| - 1], s.cl.p.pend[0];
               && ended.kind.SessionEnd? && ended.session == s.cl.p.previous.id
               && started.kind.SessionStart? && started.sequence == 0 && started.session == s.cl.session.id
               && started.ordinal == ended.ordinal + 1
  {
    var cfg, steps := ReachedBy(s);
    ReplaceAlways(cfg, steps);
    OrderAlways(cfg, steps);
    SessionsAlways(cfg, steps);
  }

  // ---- the whole call ----

  /** The log grew by the old session's end marker. */
  predicate Ended(before: seq<Event>, was: Session, admitted: seq<Event>) {
    && |admitted| == |before| + 1 && before <= admitted
    && admitted[|before|].kind.SessionEnd? && admitted[|before|].session == was.id
  }

  /** The log grew by both markers, one directly after the other. */
  predicate BothMarkers(before: seq<Event>, was: Session, admitted: seq<Event>, session: Session) {
    && |admitted| == |before| + 2 && before <= admitted
    && var ended, started := admitted[|before|], admitted[|before| + 1];
       && ended.kind.SessionEnd? && ended.session == was.id
       && started.kind.SessionStart? && started.session == session.id && started.sequence == 0
       && started.ordinal == ended.ordinal + 1
  }

  /** How a replacement of `was` may have ended. */
  predicate Replaced(before: seq<Event>, was: Session, s: State) {
    || BothMarkers(before, was, s.log.admitted, s.cl.session)
    || (s.log.admitted == before && s.cl.session == was)
    || (&& s.run.died && s.k.life.terminated && Ended(before, was, s.log.admitted) && !s.cl.session.active)
  }

  /** Where a replacement of `was`, called when the log was `before`, may have got to. */
  predicate InCall(before: seq<Event>, was: Session, s: State) {
    var p := s.cl.p;
    if p.pc.ProducerIdle? then Replaced(before, was, s)
    else if p.pc.Reserve? then
      s.log.admitted == before && s.cl.session == was == p.previous && was.active
    else if p.next.EndThenStart? then
      s.log.admitted == before && p.previous == was && (p.pc.Push? || s.cl.session == was)
    else
      p.next == Started(true) && p.previous == was && Ended(before, was, s.log.admitted)
  }

  lemma CallGoesOn(before: seq<Event>, was: Session, s: State)
    requires Reachable(s) && s.up && InCall(before, was, s) && !s.cl.p.pc.ProducerIdle?
    ensures InCall(before, was, ProducerNext(s))
  {
    if Replacing(s.cl.p) { ReplacementIsAtomic(s); }
    if s.cl.p.pc.Push? && s.cl.p.next == Started(true) { MarkersAreConsecutive(s); }
  }

  /** What a producer under way relies on. */
  predicate Waits(s: State, s': State) {
    && s'.up && s'.cl.p == s.cl.p && s'.cl.session == s.cl.session && s'.log.admitted == s.log.admitted
    && (s.run.died ==> s'.run.died)
  }

  lemma WorkerWaits(s: State, ok: bool, fault: FetchFault)
    requires s.up
    ensures Waits(s, WorkerNext(s, ok, fault))
  {
    WorkerKeepsSessions(s, ok, fault);
    WorkSpares(s, ok, fault);
  }

  lemma ConsentWaits(s: State, ok: bool)
    requires s.up && !RevokeHoldsAdmission(s.cl.c)
    ensures Waits(s, ConsentNext(s, ok))
  {}

  lemma OthersWait(s: State, step: Step)
    requires s.up && !s.cl.p.pc.ProducerIdle?
    requires !step.Work? && !step.Consenting? && !step.Producing? && !step.Crash?
    ensures Waits(s, NextUp(s, step))
  {}

  lemma CallStep(before: seq<Event>, was: Session, s: State, step: Step)
    requires Reachable(s) && s.up && InCall(before, was, s) && !s.cl.p.pc.ProducerIdle? && !step.Crash?
    ensures Next(s, step).up && InCall(before, was, Next(s, step))
  {
    match step
    case Producing =>
      CallGoesOn(before, was, s);
      ProducerSpares(s);
    case Work(ok, fault) => WorkerWaits(s, ok, fault);
    case Consenting(ok) =>
      var cfg, steps := ReachedBy(s);
      OrderAlways(cfg, steps);
      ConsentWaits(s, ok);
    case _ => OthersWait(s, step);
  }

  /** The producer is in the same call all through `steps`. */
  predicate Busy(s: State, steps: seq<Step>) {
    forall k :: 0 <= k < |steps| ==> !Exec(s, steps[..k]).cl.p.pc.ProducerIdle?
  }

  lemma {:induction false} CallRun(before: seq<Event>, was: Session, s: State, steps: seq<Step>)
    requires Reachable(s) && s.up && InCall(before, was, s) && Crash !in steps && Busy(s, steps)
    ensures var t := Exec(s, steps); Reachable(t) && t.up && InCall(before, was, t)
  {
    if steps != [] {
      var front := steps[..|steps| - 1];
      forall k | 0 <= k < |front| ensures !Exec(s, front[..k]).cl.p.pc.ProducerIdle? {
        assert front[..k] == steps[..k];
      }
      assert steps[|steps| - 1] in steps;
      CallRun(before, was, s, front);
      CallStep(before, was, Exec(s, front), steps[|steps| - 1]);
      StepReachable(Exec(s, front), steps[|steps| - 1]);
    }
  }

  /** start_session over a live session, from its entry to its return, with every other thread
      in between: both markers are admitted, one directly after the other, or the log and the
      session are as they were, or the worker has died. */
  lemma StartSessionIsAtomic(s: State, player: string, nowMs: int, steps: seq<Step>)
    requires Reachable(s) && s.up && CanStart(s) && s.cl.session.active && Crash !in steps
    requires var begun := Starting(s, player, nowMs);
             Busy(begun, steps) && Exec(begun, steps).cl.p.pc.ProducerIdle?
    ensures Replaced(s.log.admitted, s.cl.session, Exec(Starting(s, player, nowMs), steps))
  {
    StepReachable(s, StartSession(player, nowMs));
    CallRun(s.log.admitted, s.cl.session, Starting(s, player, nowMs), steps);
  }
}
