/**
  * Sessions: over all runs, the admitted events of a session are numbered without a gap, begin
  * with its start marker and end with its end marker, and replacing a live session admits both
  * markers next to each other or neither, unless the worker dies in between.
  */
module PipelineSessions {
  import opened Events
  import opened StoreSpec
  import opened Sessions
  import opened Pipeline
  import opened PipelineOrder

  function CountOf(log: seq<Event>, session: nat): nat {
    if log == [] then 0
    else CountOf(log[..|log| - 1], session) + if log[|log| - 1].session == session then 1 else 0
  }

  /** `e` continues its session. */
  predicate Continues(log: seq<Event>, e: Event) {
    && e.sequence == CountOf(log, e.session)
    && (e.kind.SessionStart? <==> e.sequence == 0)
    && (forall x :: x in log && x.session == e.session ==> !x.kind.SessionEnd? && x.ordinal < e.ordinal)
  }

  predicate LogOk(log: seq<Event>) {
    forall j :: 0 <= j < |log| ==> Continues(log[..j], log[j])
  }

  predicate KnownSessions(log: seq<Event>, sessions: nat) {
    forall x :: x in log ==> x.session < sessions
  }

  /** An active session has not ended, and its counter is where the log says. */
  predicate ActiveOk(session: Session, log: seq<Event>, sessions: nat, pend: nat, published: nat) {
    session.active ==>
      && session.id < sessions
      && session.sequence == CountOf(log, session.id) + pend
      && (forall x :: x in log && x.session == session.id ==> !x.kind.SessionEnd? && x.ordinal <= published)
  }

  predicate KindOk(p: Producer) {
    match p.next
    case Return => p.kind.Custom?
    case EndSession => p.kind.SessionEnd?
    case EndThenStart => p.kind.SessionEnd?
    case Started(_) => p.kind.SessionStart?
  }

  /** What the caller of admit_locked relies on: `number` is the number the event gets. */
  predicate CallOk(p: Producer, session: Session, number: nat) {
    match p.next
    case Return => session.active ==> number > 0
    case EndSession => session.active ==> number > 0
    case EndThenStart => session.active && number > 0 && p.previous == session.(sequence := number)
    case Started(replacing) => session.active && number == 0 && (!replacing ==> !p.previous.active)
  }

  predicate ProducerOk(cl: Callers) {
    match cl.p.pc
    case ProducerIdle => cl.session.active ==> cl.session.sequence > 0
    case Reserve => cl.p.previous == cl.session && (cl.session.active ==> cl.session.sequence > 0)
    case Gate => KindOk(cl.p) && CallOk(cl.p, cl.session, cl.session.sequence)
    case Checks => KindOk(cl.p) && CallOk(cl.p, cl.session, cl.session.sequence)
    case Push =>
      && KindOk(cl.p) && cl.session.active
      && cl.p.pend != []
      && var e := cl.p.pend[0];
         && e.session == cl.session.id && e.kind == cl.p.kind && cl.session.sequence == e.sequence + 1
         && CallOk(cl.p, cl.session, e.sequence)
  }

  predicate SessionsOk(s: State) {
    && LogOk(s.log.admitted) && KnownSessions(s.log.admitted, s.log.sessions)
    && (s.up ==> ProducerOk(s.cl)
                 && ActiveOk(s.cl.session, s.log.admitted, s.log.sessions, |s.cl.p.pend|, Published(s.cl)))
  }

  lemma LogGrows(log: seq<Event>, e: Event)
    requires LogOk(log) && Continues(log, e)
    ensures LogOk(log + [e])
  {
    forall j | 0 <= j < |log + [e]| ensures Continues((log + [e])[..j], (log + [e])[j]) {
      assert (log + [e])[..j] == log[..j];
      if j == |log| { assert log[..j] == log; }
    }
  }

  lemma CountGrows(log: seq<Event>, e: Event, session: nat)
    ensures CountOf(log + [e], session) == CountOf(log, session) + if e.session == session then 1 else 0
  {
    assert (log + [e])[..|log + [e]| - 1] == log;
  }

  lemma {:induction false} CountNone(log: seq<Event>, session: nat)
    requires KnownSessions(log, session)
    ensures CountOf(log, session) == 0
  {
    if log != [] {
      assert log[|log| - 1] in log;
      CountNone(log[..|log| - 1], session);
    }
  }

  // ---- producers ----

  /** The event being pushed continues its session. */
  lemma PendContinues(s: State)
    requires Order(s) && SessionsOk(s) && s.up && s.cl.p.pc.Push?
    ensures Continues(s.log.admitted, s.cl.p.pend[0])
    ensures s.cl.p.pend[0].session < s.log.sessions
  {}

  lemma LogPushed(s: State)
    requires Order(s) && SessionsOk(s) && s.up && s.cl.p.pc.Push?
    ensures LogOk(s.log.admitted + s.cl.p.pend)
    ensures KnownSessions(s.log.admitted + s.cl.p.pend, s.log.sessions)
  {
    PendContinues(s);
    assert s.cl.p.pend == [s.cl.p.pend[0]];
    LogGrows(s.log.admitted, s.cl.p.pend[0]);
  }

  lemma SessionsAccepted(s: State)
    requires Order(s) && SessionsOk(s) && s.up && s.cl.p.pc.Push? && !s.cl.p.next.EndThenStart?
    ensures SessionsOk(Accepted(s))
  {
    LogPushed(s);
    assert s.cl.p.pend == [s.cl.p.pend[0]];
    CountGrows(s.log.admitted, s.cl.p.pend[0], s.cl.session.id);
  }

  lemma SessionsReplaced(s: State)
    requires Order(s) && SessionsOk(s) && s.up && s.cl.p.pc.Push? && s.cl.p.next.EndThenStart?
    ensures SessionsOk(AcceptedThenStart(s))
  {
    LogPushed(s);
    CountNone(s.log.admitted + s.cl.p.pend, s.log.sessions);
  }

  lemma SessionsFirst(s: State)
    requires Order(s) && SessionsOk(s) && s.up && s.cl.p.pc.Reserve? && !s.cl.session.active
    ensures SessionsOk(FirstSession(s))
  {
    CountNone(s.log.admitted, s.log.sessions);
  }

  lemma SessionsCounted(s: State)
    requires Order(s) && SessionsOk(s) && s.up && s.cl.p.pc.Checks? && s.cl.session.active
    ensures SessionsOk(Counted(s))
  {
    var s' := Counted(s);
    assert s'.log == s.log && s'.cl.session.id == s.cl.session.id && s'.cl.p.next == s.cl.p.next;
    assert ProducerOk(s'.cl);
    assert Published(s'.cl) == Published(s.cl);
  }

  lemma SessionsUncounted(s: State)
    requires Order(s) && SessionsOk(s) && s.up && s.cl.p.pc.Push?
    ensures SessionsOk(Uncounted(s))
  {}

  lemma SessionsRefused(s: State)
    requires Order(s) && SessionsOk(s) && s.up && (s.cl.p.pc.Gate? || s.cl.p.pc.Checks?)
    ensures SessionsOk(Refused(s))
  {}

  lemma SessionsProducerAt(s: State, p: Producer)
    requires SessionsOk(s) && s.up && |p.pend| == |s.cl.p.pend| && ProducerOk(s.cl.(p := p))
    ensures SessionsOk(ProducerAt(s, p))
  {}

  lemma SessionsProducer(s: State)
    requires Order(s) && SessionsOk(s) && s.up
    ensures SessionsOk(ProducerNext(s))
  {
    match s.cl.p.pc
    case ProducerIdle =>
    case Reserve =>
      if !s.cl.session.active { SessionsFirst(s); }
      else if RoomForTwo(s) { SessionsProducerAt(s, Admitting(s.cl.p, SessionEnd, MARKER_PAYLOAD, EndThenStart)); }
      else { SessionsProducerAt(s, PRODUCER0); }
    case Gate =>
      if s.k.life.terminated { SessionsRefused(s); } else { SessionsProducerAt(s, s.cl.p.(pc := Checks)); }
    case Checks => if Admissible(s) { SessionsCounted(s); } else { SessionsRefused(s); }
    case Push =>
      if |s.b.queue| >= s.cfg.queueCap { SessionsUncounted(s); }
      else if s.cl.p.next.EndThenStart? { SessionsReplaced(s); }
      else { SessionsAccepted(s); }
  }

  // ---- other steps ----

  lemma SessionsKept(s: State, s': State)
    requires SessionsOk(s) && s'.up == s.up && s'.cl.session == s.cl.session && s'.cl.p == s.cl.p
    requires s'.cl.ordinal == s.cl.ordinal
    requires s'.log.admitted == s.log.admitted && s'.log.sessions == s.log.sessions
    ensures SessionsOk(s')
  {}

  lemma WorkerKeepsSessions(s: State, ok: bool, fault: FetchFault)
    ensures var s' := WorkerNext(s, ok, fault);
            s'.cl == s.cl && s'.up == s.up && s'.log == s.log
  {}

  lemma SessionsConsent(s: State, ok: bool)
    requires Order(s) && SessionsOk(s) && s.up
    ensures SessionsOk(ConsentNext(s, ok))
  {
    if s.cl.c.pc.ReleaseQueue? { SessionsReleased(s); }
    else {
      ConsentKeepsSessions(s, ok);
      SessionsKept(s, ConsentNext(s, ok));
    }
  }

  lemma ConsentKeepsSessions(s: State, ok: bool)
    requires !s.cl.c.pc.ReleaseQueue?
    ensures var s' := ConsentNext(s, ok);
            s'.up == s.up && s'.cl.session == s.cl.session && s'.cl.p == s.cl.p && s'.cl.ordinal == s.cl.ordinal
            && s'.log.admitted == s.log.admitted && s'.log.sessions == s.log.sessions
  {}

  lemma SessionsReleased(s: State)
    requires Order(s) && SessionsOk(s) && s.up && s.cl.c.pc.ReleaseQueue?
    ensures SessionsOk(QueueReleased(s))
  {}

  lemma SessionsOther(s: State, step: Step)
    requires SessionsOk(s) && s.up
    requires !step.Work? && !step.Producing? && !step.Consenting? && !step.Track? && !step.StartSession?
             && !step.CloseSession? && !step.Crash?
    ensures SessionsOk(NextUp(s, step))
  {
    SessionsKept(s, NextUp(s, step));
  }

  lemma SessionsCalls(s: State, step: Step)
    requires Order(s) && SessionsOk(s) && s.up && (step.Track? || step.StartSession? || step.CloseSession?)
    ensures SessionsOk(NextUp(s, step))
  {
    var p := NextUp(s, step).cl.p;
    if AdmissionFree(s) {
      CallStarts(s, step);
      SessionsProducerAt(s, p);
    } else {
      CallRefused(s, step);
    }
  }

  lemma CallRefused(s: State, step: Step)
    requires s.up && !AdmissionFree(s) && (step.Track? || step.StartSession? || step.CloseSession?)
    ensures NextUp(s, step) == s
  {}

  /** Taking the admission lock only sets up the call. */
  lemma CallStarts(s: State, step: Step)
    requires Pending(s.cl, |s.log.admitted|) && ProducerOk(s.cl) && s.up && AdmissionFree(s)
    requires step.Track? || step.StartSession? || step.CloseSession?
    ensures var p := NextUp(s, step).cl.p;
            && NextUp(s, step) == ProducerAt(s, p) && p.pend == s.cl.p.pend
            && ProducerOk(s.cl.(p := p))
  {}

  lemma SessionsUp(s: State, step: Step)
    requires Order(s) && SessionsOk(s) && s.up
    ensures SessionsOk(NextUp(s, step))
  {
    match step
    case Work(ok, fault) =>
      WorkerKeepsSessions(s, ok, fault);
      SessionsKept(s, WorkerNext(s, ok, fault));
    case Producing => SessionsProducer(s);
    case Consenting(ok) => SessionsConsent(s, ok);
    case Track(_, _) => SessionsCalls(s, step);
    case StartSession(_, _) => SessionsCalls(s, step);
    case CloseSession => SessionsCalls(s, step);
    case Crash =>
    case _ => SessionsOther(s, step);
  }

  lemma SessionsDown(s: State, step: Step)
    requires SessionsOk(s) && !s.up
    ensures SessionsOk(Next(s, step))
  {}

  lemma {:induction false} SessionsAlways(cfg: Config, steps: seq<Step>)
    requires ValidConfig(cfg)
    ensures SessionsOk(Exec(Init(cfg), steps))
  {
    if steps != [] {
      var front := steps[..|steps| - 1];
      SessionsAlways(cfg, front);
      OrderAlways(cfg, front);
      var s := Exec(Init(cfg), front);
      if s.up { SessionsUp(s, steps[|steps| - 1]); } else { SessionsDown(s, steps[|steps| - 1]); }
    }
  }

  // ---- what the log of a session looks like ----

  function OfSession(log: seq<Event>, session: nat): seq<Event> {
    if log == [] then []
    else OfSession(log[..|log| - 1], session)
         + if log[|log| - 1].session == session then [log[|log| - 1]] else []
  }

  predicate WellFormed(es: seq<Event>) {
    && (forall i :: 0 <= i < |es| ==> es[i].sequence == i)
    && (forall i :: 0 <= i < |es| ==> (es[i].kind.SessionStart? <==> i == 0))
    && (forall i :: 0 <= i < |es| - 1 ==> !es[i].kind.SessionEnd?)
    && (forall i, j :: 0 <= i < j < |es| ==> es[i].ordinal < es[j].ordinal)
  }

  lemma {:induction false} OfSessionMembers(log: seq<Event>, session: nat)
    ensures |OfSession(log, session)| == CountOf(log, session)
    ensures forall e :: e in OfSession(log, session) ==> e in log && e.session == session
  {
    if log != [] {
      OfSessionMembers(log[..|log| - 1], session);
      assert log == log[..|log| - 1] + [log[|log| - 1]];
    }
  }

  lemma LogPrefix(log: seq<Event>)
    requires LogOk(log) && log != []
    ensures LogOk(log[..|log| - 1])
  {
    var front := log[..|log| - 1];
    forall j | 0 <= j < |front| ensures Continues(front[..j], front[j]) {
      assert front[..j] == log[..j] && front[j] == log[j];
    }
  }

  lemma WellFormedGrows(es: seq<Event>, e: Event)
    requires WellFormed(es) && e.sequence == |es| && (e.kind.SessionStart? <==> e.sequence == 0)
    requires forall x :: x in es ==> !x.kind.SessionEnd? && x.ordinal < e.ordinal
    ensures WellFormed(es + [e])
  {}

  lemma {:induction false} SessionWellFormed(log: seq<Event>, session: nat)
    requires LogOk(log)
    ensures WellFormed(OfSession(log, session))
  {
    if log != [] {
      var front, last := log[..|log| - 1], log[|log| - 1];
      LogPrefix(log);
      SessionWellFormed(front, session);
      OfSessionMembers(front, session);
      assert Continues(front, last);
      if last.session == session { WellFormedGrows(OfSession(front, session), last); }
    }
  }

  /** In every run, each session's admitted events carry the numbers 0, 1, 2, ... in ordinal
      order, begin with its start marker, and none follows its end marker. */
  lemma SessionsAreWellFormed(s: State, session: nat)
    requires Reachable(s)
    ensures WellFormed(OfSession(s.log.admitted, session))
  {
    var cfg, steps := ReachedBy(s);
    SessionsAlways(cfg, steps);
    SessionWellFormed(s.log.admitted, session);
  }

  /** An ended session is never the active one again. */
  lemma EndedStaysEnded(s: State, e: Event)
    requires Reachable(s) && s.up && e in s.log.admitted && e.kind.SessionEnd?
    ensures s.cl.session.active ==> s.cl.session.id != e.session
  {
    var cfg, steps := ReachedBy(s);
    SessionsAlways(cfg, steps);
  }
}
