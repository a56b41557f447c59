/**
  * Exactly when a batch from before a revocation is still handed to the sink after the flip:
  * if and only if, at the flip, the worker is past its consent check and holds such a batch or
  * is about to fetch one.
  */
module PipelineHandover {
  import opened Events
  import opened StoreSpec
  import opened Pipeline
  import opened PipelineOrder
  import opened PipelinePrivacy

  /** Some continuation without a crash hands such a batch to the sink. */
  ghost predicate HandsOver(s: State, below: nat) {
    exists during :: Crash !in during && StaleWrites(s, during, below) >= 1
  }

  /** A batch with an event from before `below` is in hand, past the consent check. */
  predicate HasStale(s: State, below: nat) {
    s.up && Fetching(s.k.w.pc) && Stale(s.k.w.batch, below)
  }

  lemma OneWrite(s: State, step: Step, below: nat)
    ensures Exec(s, [step]) == Next(s, step)
    ensures StaleWrites(s, [step], below) == if StartsStaleWrite(s, step, below) then 1 else 0
  {
    assert [step][..0] == [];
    assert Exec(s, []) == s && StaleWrites(s, [], below) == 0;
  }

  lemma Earlier(s: State, step: Step, below: nat)
    requires !step.Crash? && HandsOver(Next(s, step), below)
    ensures HandsOver(s, below)
  {
    var during :| Crash !in during && StaleWrites(Next(s, step), during, below) >= 1;
    OneWrite(s, step, below);
    StaleWritesSplit(s, [step], during, below);
    assert Crash !in [step] + during;
  }

  // ---- with consent granted again ----

  lemma WritesNow(s: State, below: nat)
    requires HasStale(s, below) && s.k.w.pc.StartWrite?
    ensures HandsOver(s, below)
  {
    OneWrite(s, WORK, below);
    assert Crash !in [WORK];
  }

  lemma GrantedWorks(s: State, below: nat)
    requires HasStale(s, below) && s.cl.consent == Granted && !s.k.w.pc.StartWrite?
    ensures var t := Next(s, WORK);
            && HasStale(t, below) && t.cl == s.cl
            && (s.k.w.pc.SettleQuarantine? ==> t.k.w.pc.LatchDeliveryGen?)
            && (s.k.w.pc.LatchDeliveryGen? ==> t.k.w.pc.PreWriteConsent?)
            && (s.k.w.pc.PreWriteConsent? ==> t.k.w.pc.StartWrite?)
  {}

  lemma GrantedHandsOver(s: State, below: nat)
    requires HasStale(s, below) && s.cl.consent == Granted
    ensures HandsOver(s, below)
    decreases if s.k.w.pc.SettleQuarantine? then 3 else if s.k.w.pc.LatchDeliveryGen? then 2
              else if s.k.w.pc.PreWriteConsent? then 1 else 0
  {
    if s.k.w.pc.StartWrite? {
      WritesNow(s, below);
    } else {
      GrantedWorks(s, below);
      GrantedHandsOver(Next(s, WORK), below);
      Earlier(s, WORK, below);
    }
  }

  // ---- the revocation is completed and consent granted again ----

  /** The steps the consent caller still takes until consent is granted. */
  function CallsLeft(pc: ConsentPc): nat {
    match pc
    case Bump => 10
    case ClearQueue => 9
    case ReleaseQueue => 8
    case DiscardRetry => 7
    case ReleaseRetry => 6
    case Mark => 5
    case PurgeRows => 4
    case ResetCount => 3
    case ConsentIdle => 2
    case SetGranted => 1
  }

  /** Nobody is admitting, and a purge that has been committed is owed no longer. */
  predicate CallerFree(cl: Callers) {
    cl.p.pc.ProducerIdle? && (CallsLeft(cl.c.pc) <= 3 ==> !cl.purgeRequired)
  }

  function CallerStep(pc: ConsentPc): Step {
    if pc.ConsentIdle? then Grant else Consenting(true)
  }

  lemma CallerGoesOn(s: State)
    requires s.up && CallerFree(s.cl) && !StoreLocked(s) && !s.cl.c.pc.SetGranted?
    ensures var t := Next(s, CallerStep(s.cl.c.pc));
            && t.up && CallerFree(t.cl) && CallsLeft(t.cl.c.pc) < CallsLeft(s.cl.c.pc)
            && t.k.w == s.k.w && t.log.admitted == s.log.admitted && t.run.boundary == s.run.boundary
            && (CallsLeft(s.cl.c.pc) <= 4 ==> CallsLeft(t.cl.c.pc) <= 3)
            && (s.cl.c.pc.PurgeRows? ==> t.log.purgedBelow == |s.log.admitted|)
            && (CallsLeft(s.cl.c.pc) <= 3 ==> t.log == s.log)
  {}

  lemma CallerGrants(s: State)
    requires s.up && CallerFree(s.cl) && s.cl.c.pc.SetGranted?
    ensures var t := Next(s, Consenting(true));
            && t.up && t.cl.consent == Granted && t.cl.c.pc.ConsentIdle? && t.k == s.k && t.log == s.log
            && t.run.boundary == s.run.boundary
  {}

  lemma OffHandsOver(s: State, below: nat)
    requires HasStale(s, below) && CallerFree(s.cl)
    ensures HandsOver(s, below)
    decreases CallsLeft(s.cl.c.pc)
  {
    if s.cl.c.pc.SetGranted? {
      CallerGrants(s);
      GrantedHandsOver(Next(s, Consenting(true)), below);
      Earlier(s, Consenting(true), below);
    } else {
      CallerGoesOn(s);
      OffHandsOver(Next(s, CallerStep(s.cl.c.pc)), below);
      Earlier(s, CallerStep(s.cl.c.pc), below);
    }
  }

  // ---- the fetch ----

  lemma FetchTakes(s: State, below: nat)
    requires s.up && s.k.w.pc.Fetch? && Ascending(s.b.rows) && Stale(FetchedNext(s.b.rows, s.cfg.batch), below)
    ensures HasStale(Next(s, WORK), below) && Next(s, WORK).cl == s.cl
  {
    FetchOldest(s.b.rows, s.cfg.batch, NO_FAULT);
  }

  lemma CommittedHandsOver(s: State, below: nat)
    requires Order(s) && CallerFree(s.cl) && s.up && Committed(s.k.w, s.b.rows, s.cfg.batch, below)
    ensures HandsOver(s, below)
  {
    if s.k.w.pc.Fetch? {
      LineParts(s.b);
      FetchTakes(s, below);
      OffHandsOver(Next(s, WORK), below);
      Earlier(s, WORK, below);
    } else {
      OffHandsOver(s, below);
    }
  }

  // ---- the theorem ----

  /** After the flip, some run hands the sink an event admitted before it exactly if the worker,
      at the flip, is past its consent check with such a batch in hand or next to be fetched. */
  lemma StaleWriteIffCommitted(s: State, target: Consent)
    requires Reachable(s) && CanRevoke(s, target)
    ensures HandsOver(Revoked(s, target), |s.log.admitted|)
            <==> Committed(s.k.w, s.b.rows, s.cfg.batch, |s.log.admitted|)
  {
    ReachableIsSound(s);
    SoundStep(s, Revoke(target));
    var r, below := Revoked(s, target), |s.log.admitted|;
    if Committed(s.k.w, s.b.rows, s.cfg.batch, below) { CommittedHandsOver(r, below); }
    if HandsOver(r, below) {
      var during :| Crash !in during && StaleWrites(r, during, below) >= 1;
      StaleWritesAfterRevoking(s, target, during, []);
      assert during + [] == during;
    }
  }

  /** The revocation and the new grant both complete, with the batch still in the worker's hands. */
  lemma {:induction false} Regranted(s: State) returns (t: State)
    requires Reachable(s) && s.up && CallerFree(s.cl) && !StoreLocked(s)
    requires CallsLeft(s.cl.c.pc) <= 3 ==> s.log.purgedBelow == |s.log.admitted|
    ensures Reachable(t) && t.up && t.cl.consent == Granted && t.cl.c.pc.ConsentIdle? && t.k.w == s.k.w
    ensures t.log.admitted == s.log.admitted && t.log.purgedBelow == |s.log.admitted|
    ensures t.run.boundary == s.run.boundary
    decreases CallsLeft(s.cl.c.pc)
  {
    if s.cl.c.pc.SetGranted? {
      CallerGrants(s);
      StepReachable(s, Consenting(true));
      t := Next(s, Consenting(true));
    } else {
      CallerGoesOn(s);
      StepReachable(s, CallerStep(s.cl.c.pc));
      t := Regranted(Next(s, CallerStep(s.cl.c.pc)));
    }
  }
}
