/**
  * What revoking consent guarantees, over every run: stored events are current or a purge is
  * owed; a completed revocation is final; a committed marker survives crashes; at most one
  * batch of revoked events can still reach the sink; and nothing else is ever discarded.
  */
module PipelinePrivacy {
  import opened Events
  import opened StoreSpec
  import opened Pipeline
  import opened PipelineFlow
  import opened PipelineOrder
  import opened PipelineConsent

  predicate Sound(s: State) {
    Order(s) && ConsentInv(s)
  }

  lemma SoundStep(s: State, step: Step)
    requires Sound(s)
    ensures Sound(Next(s, step))
  {
    OrderStep(s, step);
    ConsentStep(s, step);
  }

  lemma {:induction false} SoundRun(s: State, steps: seq<Step>)
    requires Sound(s)
    ensures Sound(Exec(s, steps))
  {
    if steps != [] {
      SoundRun(s, steps[..|steps| - 1]);
      SoundStep(Exec(s, steps[..|steps| - 1]), steps[|steps| - 1]);
    }
  }

  lemma {:induction false} ExecSplit(s: State, a: seq<Step>, b: seq<Step>)
    ensures Exec(s, a + b) == Exec(Exec(s, a), b)
  {
    if b == [] {
      assert a + b == a;
    } else {
      ExecSplit(s, a, b[..|b| - 1]);
      assert (a + b)[..|a + b| - 1] == a + b[..|b| - 1];
    }
  }

  lemma ReachableIsSound(s: State)
    requires Reachable(s)
    ensures Sound(s)
  {
    var cfg, steps := ReachedBy(s);
    ConsentAlways(cfg, steps);
  }

  // ---- stored events are current, or a purge is owed ----

  /** While consent is granted every stored event is of the current generation, and an older
      one, or any at all without consent, means that a purge is still owed. */
  lemma StoredEventsAreCurrent(s: State)
    requires Reachable(s) && s.up
    ensures s.cl.consent == Granted ==> forall e :: e in s.b.rows ==> e.gen == s.cl.gen
    ensures forall e :: e in s.b.rows && (e.gen != s.cl.gen || s.cl.consent != Granted) ==> Owed(s.cl)
  {
    ReachableIsSound(s);
    HeldAll(s.b);
  }

  // ---- the bounds only grow ----

  lemma BoundsStep(s: State, step: Step)
    requires BoundsOk(s.run, s.log)
    ensures var log := Next(s, step).log;
            && s.log.purgedBelow <= log.purgedBelow && s.log.markBelow <= log.markBelow
            && s.log.revokedBelow <= log.revokedBelow
  {}

  lemma RunBoundsStep(s: State, step: Step)
    requires BoundsOk(s.run, s.log)
    ensures var s' := Next(s, step);
            && (s.up && s'.up ==> s.run.boundary <= s'.run.boundary && s.run.condemned == s'.run.condemned)
            && (!s.up && s'.up ==> s'.run.condemned == s.log.markBelow)
  {}

  lemma {:induction false} BoundsRun(s: State, steps: seq<Step>)
    requires Sound(s)
    ensures var s' := Exec(s, steps);
            s.log.purgedBelow <= s'.log.purgedBelow && s.log.markBelow <= s'.log.markBelow
  {
    if steps != [] {
      var front := steps[..|steps| - 1];
      BoundsRun(s, front);
      SoundRun(s, front);
      BoundsStep(Exec(s, front), steps[|steps| - 1]);
    }
  }

  // ---- acknowledgments ----

  /** `b` is `a` followed by numbers that are all at least `least`. */
  predicate Extends(a: seq<nat>, b: seq<nat>, least: nat) {
    |a| <= |b| && b[..|a|] == a && forall i :: |a| <= i < |b| ==> b[i] >= least
  }

  lemma ExtendsMore(a: seq<nat>, b: seq<nat>, c: seq<nat>, low: nat, high: nat)
    requires Extends(a, b, low) && Extends(b, c, high) && low <= high
    ensures Extends(a, c, low)
  {
    assert a == b[..|a|] == c[..|b|][..|a|] == c[..|a|];
    forall i | |a| <= i < |c| ensures c[i] >= low {
      if i < |b| { assert c[i] == c[..|b|][i] == b[i]; }
    }
  }

  lemma AckedOnlyByAck(s: State, step: Step)
    requires !(s.up && step.Work? && s.k.w.pc.Ack?)
    ensures Next(s, step).fate.acked == s.fate.acked
  {}

  lemma {:induction false} RemovedAtLeast(rows: seq<Event>, batch: seq<Event>, least: nat)
    requires forall e :: e in rows ==> e.id >= least
    ensures forall e :: e in Removed(rows, batch) ==> e.id >= least
  {
    if batch != [] {
      RemovedAtLeast(rows, batch[1..], least);
    }
  }

  lemma AckedAreRows(s: State, step: Step)
    requires ConsentInv(s)
    ensures Extends(s.fate.acked, Next(s, step).fate.acked, s.log.purgedBelow)
  {
    if s.up && step.Work? && s.k.w.pc.Ack? {
      RemovedAtLeast(s.b.rows, s.k.w.batch, s.log.purgedBelow);
    } else {
      AckedOnlyByAck(s, step);
    }
  }

  lemma {:induction false} AckedAfter(s: State, steps: seq<Step>)
    requires Sound(s)
    ensures Extends(s.fate.acked, Exec(s, steps).fate.acked, s.log.purgedBelow)
  {
    if steps != [] {
      var front := steps[..|steps| - 1];
      AckedAfter(s, front);
      SoundRun(s, front);
      BoundsRun(s, front);
      var t := Exec(s, front);
      AckedAreRows(t, steps[|steps| - 1]);
      ExtendsMore(s.fate.acked, t.fate.acked, Exec(s, steps).fate.acked, s.log.purgedBelow, t.log.purgedBelow);
    }
  }

  // ---- a completed revocation is final ----

  /** set_consent has committed its purge and is about to return Ok. */
  predicate PurgeCompleted(s: State) {
    s.up && s.cl.c.pc.ResetCount?
  }

  /** Once set_consent's purge has committed, nothing admitted before that is ever stored
      again or acknowledged again, whatever follows: a re-grant, faults, crashes, restarts. */
  lemma RevocationIsFinal(s: State, t: State)
    requires Reachable(s) && PurgeCompleted(s) && Leads(s, t)
    ensures forall e :: e in t.b.rows ==> e.id >= |s.log.admitted|
    ensures Extends(s.fate.acked, t.fate.acked, |s.log.admitted|)
  {
    ReachableIsSound(s);
    var after := LeadsBy(s, t);
    SoundRun(s, after);
    BoundsRun(s, after);
    AckedAfter(s, after);
  }

  // ---- a committed marker survives crashes ----

  /** The marker vanishes only together with every row. */
  lemma MarkerFallsWithRows(s: State, step: Step)
    requires s.marker && !Next(s, step).marker
    ensures Next(s, step).b.rows == []
  {}

  /** In every later run, no event stored before the marker was committed can be fetched. */
  lemma {:induction false} LaterRuns(s: State, steps: seq<Step>)
    requires Sound(s) && !s.up
    ensures Exec(s, steps).up ==> Exec(s, steps).run.condemned >= s.log.markBelow
  {
    if steps != [] {
      var front := steps[..|steps| - 1];
      LaterRuns(s, front);
      SoundRun(s, front);
      BoundsRun(s, front);
      RunBoundsStep(Exec(s, front), steps[|steps| - 1]);
    }
  }

  lemma FetchedAreRows(rows: seq<Event>, limit: nat, fault: FetchFault, e: Event)
    requires Ascending(rows) && e in FetchPending(rows, limit, fault).events
    ensures e in rows
  {
    FetchOldest(rows, limit, fault);
    UsableSplit(rows[..Scanned(rows, limit, fault)]);
  }

  lemma MarkerSurvives(s: State, t: State, limit: nat, fault: FetchFault)
    requires Reachable(s) && !s.up && Leads(s, t) && t.up
    ensures forall e :: e in FetchPending(t.b.rows, limit, fault).events ==> e.id >= s.log.markBelow
  {
    ReachableIsSound(s);
    var after := LeadsBy(s, t);
    SoundRun(s, after);
    LaterRuns(s, after);
    LineParts(t.b);
    forall e | e in FetchPending(t.b.rows, limit, fault).events ensures e in t.b.rows {
      FetchedAreRows(t.b.rows, limit, fault, e);
    }
  }

  // ---- nothing is discarded without cause ----

  /** Only events admitted before a revocation, or before an opening without consent, are ever
      discarded or purged for want of consent. */
  lemma OnlyRevokedAreDropped(s: State)
    requires Reachable(s)
    ensures forall x :: x in s.fate.consentDropped ==> x < s.log.revokedBelow
  {
    ReachableIsSound(s);
  }

  // ---- at most one batch of revoked events reaches the sink ----

  predicate Stale(es: seq<Event>, below: nat) {
    exists e :: e in es && e.id < below
  }

  /** The worker is handing the sink a batch with an event from before `below`. */
  predicate StartsStaleWrite(s: State, step: Step, below: nat) {
    s.up && step.Work? && s.k.w.pc.StartWrite? && Stale(s.k.w.batch, below)
  }

  /** How many such batches a run hands over. */
  function StaleWrites(s: State, steps: seq<Step>, below: nat): nat {
    if steps == [] then 0
    else
      var front := steps[..|steps| - 1];
      StaleWrites(s, front, below)
      + if StartsStaleWrite(Exec(s, front), steps[|steps| - 1], below) then 1 else 0
  }

  predicate Fetching(pc: WorkerPc) {
    pc.SettleQuarantine? || pc.LatchDeliveryGen? || pc.PreWriteConsent? || pc.StartWrite?
  }

  /** What a fetch that meets no fault hands on: the usable part of the oldest rows. */
  function FetchedNext(rows: seq<Event>, limit: nat): seq<Event> {
    Usable(rows[..Min(limit, |rows|)])
  }

  /** The worker is past its consent check and holds, or is about to fetch, such a batch. */
  predicate Committed(w: Worker, rows: seq<Event>, limit: nat, below: nat) {
    (w.pc.Fetch? && Stale(FetchedNext(rows, limit), below)) || (Fetching(w.pc) && Stale(w.batch, below))
  }

  function Potential(s: State, below: nat): nat {
    if s.up && Committed(s.k.w, s.b.rows, s.cfg.batch, below) then 1 else 0
  }

  /** The revocation is in force: consent is off, or its events have left the store for good. */
  predicate InForce(s: State, below: nat) {
    || s.log.purgedBelow >= below
    || (s.up && s.run.boundary >= below)
  }

  lemma GrantedIsClean(s: State, below: nat)
    requires ConsentInv(s) && InForce(s, below) && s.up && s.cl.consent == Granted
    ensures !Stale(FetchedNext(s.b.rows, s.cfg.batch), below)
  {
    UsableSplit(s.b.rows[..Min(s.cfg.batch, |s.b.rows|)]);
  }

  lemma PotentialQuiet(s: State, ok: bool, below: nat)
    requires Sound(s) && InForce(s, below) && s.up && !Moves(s.k.w.pc)
    ensures var k := QuietNext(s, ok);
            Committed(k.w, s.b.rows, s.cfg.batch, below) ==>
              Committed(s.k.w, s.b.rows, s.cfg.batch, below) && !s.k.w.pc.StartWrite?
  {
    QuietFlow(s, ok);
    QuietBatch(s, ok);
    if s.k.w.pc.DeliverConsent? && s.cl.consent == Granted {
      GrantedIsClean(s, below);
    }
  }

  /** A fault only shortens what a fetch hands on. */
  lemma FaultsOnlyShorten(rows: seq<Event>, limit: nat, fault: FetchFault, below: nat)
    requires Ascending(rows) && Stale(FetchPending(rows, limit, fault).events, below)
    ensures Stale(FetchedNext(rows, limit), below)
  {
    var n, m := Scanned(rows, limit, fault), Min(limit, |rows|);
    FetchOldest(rows, limit, fault);
    var e :| e in Usable(rows[..n]) && e.id < below;
    UsableFurther(rows, n, m, e);
    assert e in FetchedNext(rows, limit);
  }

  lemma UsableFurther(rows: seq<Event>, n: nat, m: nat, e: Event)
    requires n <= m <= |rows| && e in Usable(rows[..n])
    ensures e in Usable(rows[..m])
  {
    UsableSplit(rows[..n]);
    UsableSplit(rows[..m]);
    var i :| 0 <= i < n && rows[i] == e;
    assert rows[..m][i] == e;
  }

  lemma PotentialFetch(s: State, fault: FetchFault, below: nat)
    requires Sound(s) && s.k.w.pc.Fetch? && s.up
    ensures var s' := MovingNext(s, true, fault);
            Committed(s'.k.w, s'.b.rows, s'.cfg.batch, below) ==> Stale(FetchedNext(s.b.rows, s.cfg.batch), below)
  {
    LineParts(s.b);
    if Stale(FetchPending(s.b.rows, s.cfg.batch, fault).events, below) {
      FaultsOnlyShorten(s.b.rows, s.cfg.batch, fault, below);
    }
  }

  lemma OnlyFetchCommits(s: State, ok: bool, fault: FetchFault)
    requires Moves(s.k.w.pc) && !s.k.w.pc.Fetch?
    ensures var pc := MovingNext(s, ok, fault).k.w.pc; !pc.Fetch? && !Fetching(pc)
  {
    MovingFlow(s, ok, fault);
  }

  lemma PotentialMoving(s: State, ok: bool, fault: FetchFault, below: nat)
    requires Sound(s) && s.up && Moves(s.k.w.pc)
    ensures Potential(MovingNext(s, ok, fault), below) <= Potential(s, below)
  {
    if s.k.w.pc.Fetch? {
      PotentialFetch(s, fault, below);
      assert MovingNext(s, ok, fault) == MovingNext(s, true, fault);
    } else {
      OnlyFetchCommits(s, ok, fault);
    }
  }

  /** The callers never give the worker a staler batch. */
  lemma PotentialOther(s: State, step: Step, below: nat)
    requires !step.Work?
    ensures Potential(Next(s, step), below) <= Potential(s, below)
  {
    if s.up {
      OthersSpareWorker(s, step);
      OthersKeepConfig(s, step);
    } else {
      OpensUncommitted(s, step);
    }
  }

  lemma OthersKeepConfig(s: State, step: Step)
    requires s.up && !step.Work?
    ensures NextUp(s, step).cfg == s.cfg
  {}

  lemma OpensUncommitted(s: State, step: Step)
    requires !s.up
    ensures Next(s, step).up ==> Next(s, step).k.w.pc.Top?
  {}

  lemma PotentialStep(s: State, step: Step, below: nat)
    requires Sound(s) && InForce(s, below)
    ensures Potential(Next(s, step), below) + (if StartsStaleWrite(s, step, below) then 1 else 0)
            <= Potential(s, below)
  {
    if s.up && step.Work? {
      if Moves(s.k.w.pc) { PotentialMoving(s, step.ok, step.fault, below); }
      else { PotentialQuiet(s, step.ok, below); }
    } else {
      if !step.Work? { PotentialOther(s, step, below); }
    }
  }

  /** Either the process stays up, or the purge has committed before it goes down. */
  predicate StaysInForce(s: State, steps: seq<Step>, below: nat) {
    forall k :: 0 <= k <= |steps| ==> InForce(Exec(s, steps[..k]), below)
  }

  lemma {:induction false} StaleWritesBounded(s: State, steps: seq<Step>, below: nat)
    requires Sound(s) && StaysInForce(s, steps, below)
    ensures StaleWrites(s, steps, below) + Potential(Exec(s, steps), below) <= Potential(s, below)
  {
    if steps != [] {
      var front := steps[..|steps| - 1];
      forall k | 0 <= k <= |front| ensures InForce(Exec(s, front[..k]), below) {
        assert front[..k] == steps[..k];
      }
      assert steps[..|front|] == front;
      StaleWritesBounded(s, front, below);
      SoundRun(s, front);
      PotentialStep(Exec(s, front), steps[|steps| - 1], below);
    }
  }

  lemma InForceStep(s: State, step: Step, below: nat)
    requires Sound(s) && InForce(s, below)
    requires s.log.purgedBelow >= below || !step.Crash?
    ensures InForce(Next(s, step), below)
  {
    BoundsStep(s, step);
    if s.log.purgedBelow < below {
      RunBoundsStep(s, step);
      OnlyCrashGoesDown(s, step);
    }
  }

  lemma OnlyCrashGoesDown(s: State, step: Step)
    requires s.up && !step.Crash?
    ensures Next(s, step).up
  {}

  lemma {:induction false} InForceRun(s: State, steps: seq<Step>, below: nat)
    requires Sound(s) && InForce(s, below)
    requires s.log.purgedBelow >= below || Crash !in steps
    ensures InForce(Exec(s, steps), below)
  {
    if steps != [] {
      var front := steps[..|steps| - 1];
      InForceRun(s, front, below);
      SoundRun(s, front);
      BoundsRun(s, front);
      assert steps[|steps| - 1] in steps;
      InForceStep(Exec(s, front), steps[|steps| - 1], below);
    }
  }

  lemma StaysInForceWhile(s: State, steps: seq<Step>, below: nat)
    requires Sound(s) && InForce(s, below)
    requires s.log.purgedBelow >= below || Crash !in steps
    ensures StaysInForce(s, steps, below)
  {
    forall k | 0 <= k <= |steps| ensures InForce(Exec(s, steps[..k]), below) {
      InForceRun(s, steps[..k], below);
    }
  }

  lemma {:induction false} StaleWritesSplit(s: State, a: seq<Step>, b: seq<Step>, below: nat)
    ensures StaleWrites(s, a + b, below) == StaleWrites(s, a, below) + StaleWrites(Exec(s, a), b, below)
  {
    if b == [] {
      assert a + b == a;
    } else {
      var front := b[..|b| - 1];
      StaleWritesSplit(s, a, front, below);
      assert (a + b)[..|a + b| - 1] == a + front;
      ExecSplit(s, a, front);
    }
  }

  /** `during` without a crash; `after` once every event from before `below` is purged. */
  lemma StaleWritesAfter(r: State, during: seq<Step>, after: seq<Step>, below: nat)
    requires Sound(r) && InForce(r, below) && Crash !in during
    requires after == [] || Exec(r, during).log.purgedBelow >= below
    ensures StaleWrites(r, during + after, below) <= Potential(r, below)
  {
    StaysInForceWhile(r, during, below);
    StaleWritesBounded(r, during, below);
    SoundRun(r, during);
    InForceRun(r, during, below);
    StaleWritesSplit(r, during, after, below);
    if after != [] {
      StaysInForceWhile(Exec(r, during), after, below);
      StaleWritesBounded(Exec(r, during), after, below);
    }
  }

  predicate CanRevoke(s: State, target: Consent) {
    s.up && s.cl.c.pc.ConsentIdle? && AdmissionFree(s) && target != Granted
  }

  lemma StaleWritesAfterRevoking(s: State, target: Consent, during: seq<Step>, after: seq<Step>)
    requires Sound(s) && CanRevoke(s, target) && Crash !in during
    requires after == [] || Exec(Revoked(s, target), during).log.purgedBelow >= |s.log.admitted|
    ensures StaleWrites(Revoked(s, target), during + after, |s.log.admitted|)
            <= Potential(Revoked(s, target), |s.log.admitted|)
  {
    SoundStep(s, Revoke(target));
    StaleWritesAfter(Revoked(s, target), during, after, |s.log.admitted|);
  }

  /** After the consent flip, while the purge is under way (`during`) and once it has committed
      (`after`, with crashes and restarts), at most one batch holding an event admitted before
      the flip is handed to the sink, counting one that is in the sink already. */
  lemma AtMostOneStaleBatch(s: State, target: Consent, during: seq<Step>, after: seq<Step>)
    requires Reachable(s) && CanRevoke(s, target) && Crash !in during
    requires after == [] || Exec(Revoked(s, target), during).log.purgedBelow >= |s.log.admitted|
    ensures StaleWrites(Revoked(s, target), during + after, |s.log.admitted|)
            + (if s.k.w.pc.Writing? && Stale(s.k.w.batch, |s.log.admitted|) then 1 else 0) <= 1
  {
    ReachableIsSound(s);
    StaleWritesAfterRevoking(s, target, during, after);
  }
}
