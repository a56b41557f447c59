/**
  * The ledger: every event ever admitted is held, or has met exactly one fate, and what each
  * fate required has happened. At-least-once delivery of stored events follows.
  */
module PipelineLedger {
  import opened Events
  import opened StoreSpec
  import opened Pipeline
  import opened PipelineFlow
  import opened PipelineOrder

  function Acked(f: Fate): set<nat> {
    set x | x in f.acked
  }

  /** The events that have met a fate. */
  function Settled(f: Fate): set<nat> {
    Acked(f) + f.invalid + f.consentDropped + f.lost
  }

  predicate OneFate(f: Fate) {
    && Acked(f) !! f.invalid + f.consentDropped + f.lost
    && f.invalid !! f.consentDropped + f.lost
    && f.consentDropped !! f.lost
  }

  /** The identifiers 0..n-1. */
  function FirstIds(n: nat): (ids: set<nat>)
    ensures forall x: nat :: x in ids <==> x < n
  {
    if n == 0 then {} else FirstIds(n - 1) + {n - 1}
  }

  /** Of the identifiers below `n`, each is held or settled and none is both. */
  predicate Ledger(held: set<nat>, n: nat, f: Fate) {
    && held !! Settled(f)
    && held + Settled(f) == FirstIds(n)
    && OneFate(f)
  }

  predicate Wrote(pc: WorkerPc) {
    pc.RecheckConsent? || pc.RecheckGen? || pc.Ack?
  }

  /** What was ever stored is stored, or left the store for a reason. */
  predicate StoreLedger(rows: seq<Event>, pc: WorkerPc, batch: seq<Event>, f: Fate) {
    && IdSet(rows) <= f.stored
    && (forall x :: x in f.stored ==> x in IdSet(rows) || x in f.acked || x in f.invalid || x in f.consentDropped)
    && (forall x :: x in f.acked ==> x in f.wrote)
    && (Wrote(pc) ==> IdSet(batch) <= f.wrote)
  }

  predicate InvalidOk(invalid: set<nat>, admitted: seq<Event>) {
    forall x :: x in invalid ==>
      x < |admitted| && (!admitted[x].payload.serializes || !admitted[x].payload.parses)
  }

  /** Only what the serializer accepted is kept for the store. */
  predicate Serialized(keep: seq<Event>, stored: set<nat>, admitted: seq<Event>) {
    && (forall e :: e in keep ==> e.payload.serializes)
    && (forall x :: x in stored ==> x < |admitted| && admitted[x].payload.serializes)
  }

  predicate Accounts(s: State) {
    && Ledger(IdSet(Held(s.b)), |s.log.admitted|, s.fate)
    && StoreLedger(s.b.rows, s.k.w.pc, s.k.w.batch, s.fate)
    && InvalidOk(s.fate.invalid, s.log.admitted)
    && Serialized(s.b.keep, s.fate.stored, s.log.admitted)
  }

  // ---- events leave for one fate ----

  lemma Acknowledge(held: set<nat>, n: nat, f: Fate, es: seq<Event>)
    requires Ledger(held, n, f) && IdSet(es) <= held
    ensures Ledger(held - IdSet(es), n, f.(acked := f.acked + Ids(es)))
  {
    IdsAreIdSet(es);
    var f' := f.(acked := f.acked + Ids(es));
    assert Acked(f') == Acked(f) + IdSet(es);
    MovesOver(held, Settled(f), IdSet(es), Settled(f'));
  }

  /** What leaves one side of the ledger joins the other. */
  lemma MovesOver(held: set<nat>, settled: set<nat>, gone: set<nat>, settled': set<nat>)
    requires gone <= held && held !! settled && settled' == settled + gone
    ensures (held - gone) !! settled' && (held - gone) + settled' == held + settled
  {}

  lemma IdsAreIdSet(es: seq<Event>)
    ensures forall x :: x in Ids(es) <==> x in IdSet(es)
  {
    forall x | x in IdSet(es) ensures x in Ids(es) {
      var e :| e in es && e.id == x;
      var i :| 0 <= i < |es| && es[i] == e;
      assert Ids(es)[i] == x;
    }
  }

  lemma Drop(held: set<nat>, n: nat, f: Fate, es: seq<Event>)
    requires Ledger(held, n, f) && IdSet(es) <= held
    ensures Ledger(held - IdSet(es), n, ConsentDrops(f, es))
  {
    MovesOver(held, Settled(f), IdSet(es), Settled(ConsentDrops(f, es)));
  }

  lemma Lose(held: set<nat>, n: nat, f: Fate, es: seq<Event>)
    requires Ledger(held, n, f) && IdSet(es) <= held
    ensures Ledger(held - IdSet(es), n, Loses(f, es))
  {
    MovesOver(held, Settled(f), IdSet(es), Settled(Loses(f, es)));
  }

  lemma Invalidate(held: set<nat>, n: nat, f: Fate, gone: set<nat>)
    requires Ledger(held, n, f) && gone <= held
    ensures Ledger(held - gone, n, f.(invalid := f.invalid + gone))
  {
    MovesOver(held, Settled(f), gone, Settled(f.(invalid := f.invalid + gone)));
  }

  /** `held'` is `held` without the events of `gone`. */
  predicate Leave(held: seq<Event>, held': seq<Event>, gone: seq<Event>) {
    && (forall e :: e in gone ==> e in held)
    && (forall e :: e in held' ==> e in held && e !in gone)
    && (forall e :: e in held && e !in gone ==> e in held')
  }

  lemma LeaveIds(held: seq<Event>, held': seq<Event>, gone: seq<Event>)
    requires Ascending(held) && Leave(held, held', gone)
    ensures IdSet(held') == IdSet(held) - IdSet(gone) && IdSet(gone) <= IdSet(held)
  {
    DistinctIds(held);
  }

  // ---- the store's part of the ledger ----

  lemma StoreRowsGo(rows: seq<Event>, pc: WorkerPc, batch: seq<Event>, f: Fate,
                    rows': seq<Event>, pc': WorkerPc, batch': seq<Event>, f': Fate)
    requires StoreLedger(rows, pc, batch, f)
    requires IdSet(rows') <= IdSet(rows) && f'.stored == f.stored && f.wrote <= f'.wrote
    requires forall x :: x in IdSet(rows) && x !in IdSet(rows') ==>
               x in f'.acked || x in f'.invalid || x in f'.consentDropped
    requires forall x :: x in f.acked ==> x in f'.acked
    requires forall x :: x in f'.acked ==> x in f.acked || x in f.wrote
    requires f.invalid <= f'.invalid && f.consentDropped <= f'.consentDropped
    requires Wrote(pc') ==> IdSet(batch') <= f'.wrote
    ensures StoreLedger(rows', pc', batch', f')
  {}

  // ---- worker steps ----

  lemma AccountsQuiet(s: State, ok: bool)
    requires Accounts(s) && !Moves(s.k.w.pc)
    ensures Accounts(s.(k := QuietNext(s, ok)))
  {
    QuietFlow(s, ok);
    QuietBatch(s, ok);
  }

  /** A step that leaves the line of held events and the rows as they are. */
  lemma AccountsSame(s: State, s': State)
    requires Accounts(s) && Held(s'.b) == Held(s.b) && s'.b.rows == s.b.rows
    requires forall e :: e in s'.b.keep ==> e in s.b.keep || e.payload.serializes
    requires s'.fate == s.fate && s'.log.admitted == s.log.admitted
    requires Wrote(s'.k.w.pc) ==> Wrote(s.k.w.pc) && s'.k.w.batch == s.k.w.batch
    ensures Accounts(s')
  {}

  lemma AccountsUnmoved(s: State, s': State)
    requires Accounts(s) && s'.b == s.b && s'.fate == s.fate && s'.log.admitted == s.log.admitted
    requires s'.k.w == s.k.w
    ensures Accounts(s')
  {}

  /** Events in memory are dropped for want of consent. */
  lemma AccountsDropped(s: State, s': State, gone: seq<Event>)
    requires Order(s) && Accounts(s) && Leave(Held(s.b), Held(s'.b), gone) && s'.b.rows == s.b.rows
    requires forall e :: e in s'.b.keep ==> e in s.b.keep
    requires s'.fate == ConsentDrops(s.fate, gone) && s'.log.admitted == s.log.admitted
    requires Wrote(s'.k.w.pc) ==> Wrote(s.k.w.pc) && s'.k.w.batch == s.k.w.batch
    ensures Accounts(s')
  {
    LeaveIds(Held(s.b), Held(s'.b), gone);
    Drop(IdSet(Held(s.b)), |s.log.admitted|, s.fate, gone);
  }

  /** The store is emptied for want of consent. */
  lemma AccountsPurged(s: State, s': State)
    requires Order(s) && Accounts(s) && s'.b == s.b.(rows := [])
    requires s'.fate == ConsentDrops(s.fate, s.b.rows) && s'.log.admitted == s.log.admitted
    requires Wrote(s'.k.w.pc) ==> Wrote(s.k.w.pc) && s'.k.w.batch == s.k.w.batch
    ensures Accounts(s')
  {
    LineParts(s.b);
    LeaveIds(Held(s.b), Held(s'.b), s.b.rows);
    Drop(IdSet(Held(s.b)), |s.log.admitted|, s.fate, s.b.rows);
    StoreRowsGo(s.b.rows, s.k.w.pc, s.k.w.batch, s.fate, [], s'.k.w.pc, s'.k.w.batch, s'.fate);
  }

  lemma AccountsDropIncoming(s: State)
    requires Order(s) && Accounts(s) && s.k.w.pc.DiscardBatch?
    ensures Accounts(DropIncoming(s))
  {
    LineParts(s.b);
    AccountsDropped(s, DropIncoming(s), s.b.hand);
  }

  lemma AccountsDropKept(s: State)
    requires Order(s) && Accounts(s) && s.k.w.pc.DiscardKeep?
    ensures Accounts(DropKept(s))
  {
    LineParts(s.b);
    AccountsDropped(s, DropKept(s), s.b.keep);
  }

  lemma HeadLeaves(b: Buffers)
    requires Ascending(Held(b)) && b.hand != []
    ensures Leave(Held(b), Held(b.(hand := b.hand[1..])), [b.hand[0]])
  {
    LineParts(b);
    assert b.hand == [b.hand[0]] + b.hand[1..];
    AscendingParts([b.hand[0]], b.hand[1..]);
  }

  lemma AccountsSiftStale(s: State)
    requires Order(s) && Accounts(s) && s.k.w.pc.Sift? && s.b.hand != []
    ensures Accounts(SiftStale(s))
  {
    HeadLeaves(s.b);
    AccountsDropped(s, SiftStale(s), [s.b.hand[0]]);
  }

  lemma AccountsSiftInvalid(s: State)
    requires Order(s) && Accounts(s) && s.k.w.pc.Sift? && s.b.hand != [] && !s.b.hand[0].payload.serializes
    ensures Accounts(SiftInvalid(s))
  {
    HeadLeaves(s.b);
    var e := s.b.hand[0];
    LeaveIds(Held(s.b), Held(SiftInvalid(s).b), [e]);
    assert IdSet([e]) == {e.id};
    Invalidate(IdSet(Held(s.b)), |s.log.admitted|, s.fate, {e.id});
    assert e in s.b.hand && e in Held(s.b) && Genuine(e, s.log.admitted);
  }

  lemma SiftKeepLine(b: Buffers)
    requires b.hand != [] && b.hand[0].payload.serializes
    ensures var b' := b.(hand := b.hand[1..], keep := b.keep + [b.hand[0]]);
            Held(b') == Held(b) && forall e :: e in b'.keep ==> e in b.keep || e.payload.serializes
  {
    assert b.hand == [b.hand[0]] + b.hand[1..];
  }

  lemma AccountsSiftKeep(s: State)
    requires Order(s) && Accounts(s) && s.k.w.pc.Sift? && s.b.hand != [] && s.b.hand[0].payload.serializes
    ensures Accounts(SiftKeep(s))
  {
    SiftKeepLine(s.b);
    AccountsSame(s, SiftKeep(s));
  }

  lemma AccountsStored(s: State)
    requires Order(s) && Accounts(s) && s.k.w.pc.Insert?
    ensures Accounts(Stored(s))
  {
    OrderStored(s);
    IdSetJoin(s.b.rows, s.b.keep);
    forall e | e in s.b.keep ensures Genuine(e, s.log.admitted) { assert e in Held(s.b); }
  }

  lemma IdSetJoin(a: seq<Event>, b: seq<Event>)
    ensures IdSet(a + b) == IdSet(a) + IdSet(b)
  {
    forall x | x in IdSet(a) + IdSet(b) ensures x in IdSet(a + b) {
      var e :| (e in a || e in b) && e.id == x;
      assert e in a + b;
    }
  }

  /** Quarantine: the rows that leave cannot be parsed. */
  lemma AccountsQuarantined(s: State, f: FetchResult, n: nat)
    requires Order(s) && Accounts(s) && s.k.w.pc.Fetch?
    requires n <= |s.b.rows| && f.rows == Usable(s.b.rows[..n]) + s.b.rows[n..]
    ensures Accounts(FetchedAndQuarantined(s, f))
  {
    var s' := FetchedAndQuarantined(s, f);
    var bad := Unusable(s.b.rows[..n]);
    QuarantineLeaves(s.b, n);
    LeaveIds(Held(s.b), Held(s'.b), bad);
    LeaveIds(s.b.rows, f.rows, bad);
    Invalidate(IdSet(Held(s.b)), |s.log.admitted|, s.fate, IdSet(bad));
    StoreRowsGo(s.b.rows, s.k.w.pc, s.k.w.batch, s.fate, f.rows, s'.k.w.pc, s'.k.w.batch, s'.fate);
    UnusableInvalid(s.b, n, s.fate.invalid, s.log.admitted);
  }

  lemma UnusableInvalid(b: Buffers, n: nat, invalid: set<nat>, admitted: seq<Event>)
    requires n <= |b.rows| && InvalidOk(invalid, admitted)
    requires forall e :: e in Held(b) ==> Genuine(e, admitted)
    ensures InvalidOk(invalid + IdSet(Unusable(b.rows[..n])), admitted)
  {
    UsableSplit(b.rows[..n]);
    forall e | e in Unusable(b.rows[..n]) ensures Genuine(e, admitted) && !e.payload.parses {
      assert e in Held(b);
    }
  }

  lemma QuarantineLeaves(b: Buffers, n: nat)
    requires Ascending(Held(b)) && n <= |b.rows|
    ensures var rows' := Usable(b.rows[..n]) + b.rows[n..];
            var bad := Unusable(b.rows[..n]);
            Ascending(b.rows) && Leave(b.rows, rows', bad) && Leave(Held(b), Held(b.(rows := rows')), bad)
  {
    LineParts(b);
    RowsLeave(b.rows, n);
  }

  lemma RowsLeave(rows: seq<Event>, n: nat)
    requires Ascending(rows) && n <= |rows|
    ensures Leave(rows, Usable(rows[..n]) + rows[n..], Unusable(rows[..n]))
    ensures Leave(rows, Unusable(rows[..n]) + rows[n..], Usable(rows[..n]))
  {
    assert rows == rows[..n] + rows[n..];
    AscendingParts(rows[..n], rows[n..]);
    UsableSplit(rows[..n]);
  }

  lemma AccountsFetched(s: State, f: FetchResult, n: nat)
    requires Accounts(s) && s.k.w.pc.Fetch?
    ensures Accounts(Fetched(s, f, n))
  {}

  lemma AccountsFetch(s: State, ok: bool, fault: FetchFault)
    requires Order(s) && Accounts(s) && s.k.w.pc.Fetch?
    ensures Accounts(MovingNext(s, ok, fault))
  {
    LineParts(s.b);
    FetchOldest(s.b.rows, s.cfg.batch, fault);
    var f, n := FetchPending(s.b.rows, s.cfg.batch, fault), Scanned(s.b.rows, s.cfg.batch, fault);
    if f.quarantined > 0 {
      AccountsQuarantined(s, f, n);
      assert MovingNext(s, ok, fault) == FetchedAndQuarantined(s, f);
    } else {
      AccountsFetched(s, f, n);
      assert MovingNext(s, ok, fault) == Fetched(s, f, n);
    }
  }

  lemma AccountsWritten(s: State)
    requires Accounts(s) && s.k.w.pc.Writing?
    ensures Accounts(Written(s))
  {}

  lemma AckLeaves(b: Buffers, n: nat)
    requires Ascending(Held(b)) && n <= |b.rows|
    ensures var rows' := Unusable(b.rows[..n]) + b.rows[n..];
            var batch := Usable(b.rows[..n]);
            Ascending(b.rows) && Leave(b.rows, rows', batch) && Leave(Held(b), Held(b.(rows := rows')), batch)
  {
    LineParts(b);
    RowsLeave(b.rows, n);
  }

  lemma AccountsAcked(s: State, s': State)
    requires Order(s) && Accounts(s) && s.k.w.pc.Ack? && AckStep(s, s')
    ensures Accounts(s')
  {
    AckAllOrNone(s);
    if s.b.rows == [] {
      assert s'.fate.acked == s.fate.acked;
    } else {
      AckLeaves(s.b, s.k.w.scanned);
      LeaveIds(Held(s.b), Held(s'.b), s.k.w.batch);
      LeaveIds(s.b.rows, s'.b.rows, s.k.w.batch);
      Acknowledge(IdSet(Held(s.b)), |s.log.admitted|, s.fate, s.k.w.batch);
      IdsAreIdSet(s.k.w.batch);
      StoreRowsGo(s.b.rows, s.k.w.pc, s.k.w.batch, s.fate, s'.b.rows, s'.k.w.pc, s'.k.w.batch, s'.fate);
    }
  }

  lemma AccountsSift(s: State, ok: bool, fault: FetchFault)
    requires Order(s) && Accounts(s) && s.k.w.pc.Sift?
    ensures Accounts(MovingNext(s, ok, fault))
  {
    if s.b.hand != [] {
      if s.b.hand[0].gen != s.k.w.gen { AccountsSiftStale(s); }
      else if !s.b.hand[0].payload.serializes { AccountsSiftInvalid(s); }
      else { AccountsSiftKeep(s); }
    } else if s.b.keep == [] { AccountsToDeliver(s); }
    else { AccountsSame(s, s.(k := At(s, BoundaryConsent))); }
  }

  lemma AccountsFailed(s: State, code: Code, pc: WorkerPc)
    requires Accounts(s) && !Wrote(pc)
    ensures Accounts(s.(k := FailedAt(s, code, pc)))
  {}

  lemma AccountsDrain(s: State)
    requires Accounts(s) && s.k.w.pc.Pop? && s.b.hand == []
    ensures Accounts(Drain(s))
  {
    AccountsSame(s, Drain(s));
  }

  lemma AccountsJoinRetry(s: State)
    requires Accounts(s) && s.k.w.pc.TakeRetry? && s.b.keep == []
    ensures Accounts(JoinRetry(s))
  {
    AccountsSame(s, JoinRetry(s));
  }

  lemma AccountsHold(s: State)
    requires Accounts(s) && s.k.w.pc.Hold? && s.b.retry == []
    ensures Accounts(HoldForRetry(s))
  {
    AccountsSame(s, HoldForRetry(s));
  }

  lemma AccountsToDeliver(s: State)
    requires Accounts(s)
    ensures Accounts(ToDeliver(s))
  {}

  lemma AccountsPurgeFailed(s: State)
    requires Accounts(s)
    ensures Accounts(PurgeFailed(s))
  {}

  lemma AccountsMoving(s: State, ok: bool, fault: FetchFault)
    requires Order(s) && Accounts(s) && Moves(s.k.w.pc)
    ensures Accounts(MovingNext(s, ok, fault))
  {
    match s.k.w.pc
    case Pop => AccountsDrain(s);
    case TakeRetry =>
      if s.b.retry + s.b.hand == [] { AccountsToDeliver(s); } else { AccountsJoinRetry(s); }
    case DiscardBatch => AccountsDropIncoming(s);
    case Sift => AccountsSift(s, ok, fault);
    case Insert => if ok { AccountsStored(s); } else { AccountsFailed(s, StorageError, Hold); }
    case DiscardKeep => AccountsDropKept(s);
    case Hold => AccountsHold(s);
    case Fetch => AccountsFetch(s, ok, fault);
    case Writing => if ok { AccountsWritten(s); } else { AccountsFailed(s, SinkError, AfterDeliver); }
    case Ack =>
      if ok { AccountsAcked(s, MovingNext(s, ok, fault)); } else { AccountsFailed(s, StorageError, AfterDeliver); }
    case PurgeStore => if ok { AccountsPurged(s, Purged(s)); } else { AccountsPurgeFailed(s); }
  }

  lemma AccountsDied(s: State)
    requires Order(s) && Accounts(s)
    ensures Accounts(WorkerDied(s))
  {
    LineParts(s.b);
    var s' := WorkerDied(s);
    LeaveIds(Held(s.b), Held(s'.b), s.b.keep + s.b.hand);
    Lose(IdSet(Held(s.b)), |s.log.admitted|, s.fate, s.b.keep + s.b.hand);
  }

  // ---- the callers, crash and reopening ----

  lemma AccountsConsent(s: State, ok: bool)
    requires Order(s) && Accounts(s)
    ensures Accounts(ConsentNext(s, ok))
  {
    match s.cl.c.pc
    case ClearQueue => AccountsQueueCleared(s);
    case DiscardRetry => AccountsRetryDiscarded(s);
    case PurgeRows =>
      if ok && !StoreLocked(s) { AccountsPurged(s, CallerPurged(s)); } else { AccountsUnmoved(s, ConsentNext(s, ok)); }
    case _ => AccountsUnmoved(s, ConsentNext(s, ok));
  }

  lemma AccountsQueueCleared(s: State)
    requires Order(s) && Accounts(s)
    ensures Accounts(QueueCleared(s))
  {
    LineParts(s.b);
    AccountsDropped(s, QueueCleared(s), s.b.queue);
  }

  lemma AccountsRetryDiscarded(s: State)
    requires Order(s) && Accounts(s)
    ensures Accounts(RetryDiscarded(s))
  {
    LineParts(s.b);
    AccountsDropped(s, RetryDiscarded(s), s.b.retry);
  }

  lemma Admit(held: seq<Event>, n: nat, f: Fate, e: Event)
    requires Ledger(IdSet(held), n, f) && e.id == n
    ensures Ledger(IdSet(held + [e]), n + 1, f)
  {
    IdSetJoin(held, [e]);
    assert IdSet([e]) == {n};
    assert n !in FirstIds(n);
    assert FirstIds(n + 1) == FirstIds(n) + {n};
    assert IdSet(held + [e]) == IdSet(held) + {n};
  }

  lemma AccountsPushed(s: State, s': State)
    requires Order(s) && Accounts(s) && s.up && s.cl.p.pc.Push?
    requires s'.b == s.b.(queue := s.b.queue + s.cl.p.pend) && s'.k.w == s.k.w && s'.fate == s.fate
    requires s'.log.admitted == s.log.admitted + s.cl.p.pend
    ensures Accounts(s')
  {
    var e := s.cl.p.pend[0];
    assert s.cl.p.pend == [e];
    assert Held(s'.b) == Held(s.b) + [e];
    Admit(Held(s.b), |s.log.admitted|, s.fate, e);
  }

  lemma AccountsProducer(s: State)
    requires Order(s) && Accounts(s) && s.up
    ensures Accounts(ProducerNext(s))
  {
    if s.cl.p.pc.Push? && |s.b.queue| < s.cfg.queueCap {
      AccountsPushed(s, ProducerNext(s));
    } else {
      AccountsUnmoved(s, ProducerNext(s));
    }
  }

  lemma AccountsCrashed(s: State)
    requires Order(s) && Accounts(s)
    ensures Accounts(Crashed(s))
  {
    LineParts(s.b);
    var memory := s.b.retry + (s.b.keep + (s.b.hand + s.b.queue));
    LeaveIds(Held(s.b), Held(Crashed(s).b), memory);
    Lose(IdSet(Held(s.b)), |s.log.admitted|, s.fate, memory);
  }

  lemma AccountsOpenedGranted(s: State)
    requires Order(s) && Accounts(s) && !s.up && s.b == Buffers(s.b.rows, [], [], [], [])
    ensures Accounts(OpenedGranted(s))
  {
    var s' := OpenedGranted(s);
    assert Held(s'.b) == s'.b.rows && Held(s.b) == s.b.rows;
    RestampIds(s.b.rows);
  }

  lemma RestampIds(es: seq<Event>)
    ensures IdSet(Restamp(es)) == IdSet(es)
  {
    var r := Restamp(es);
    forall x | x in IdSet(es) ensures x in IdSet(r) {
      var i :| 0 <= i < |es| && es[i].id == x;
      assert r[i] in r;
    }
    forall x | x in IdSet(r) ensures x in IdSet(es) {
      var i :| 0 <= i < |r| && r[i].id == x;
      assert es[i] in es;
    }
  }

  lemma AccountsOpenedEmpty(s: State, initial: Consent)
    requires Order(s) && Accounts(s) && !s.up && s.b == Buffers(s.b.rows, [], [], [], [])
    ensures Accounts(OpenedEmpty(s, initial))
  {
    assert Held(s.b) == s.b.rows;
    AccountsPurged(s, OpenedEmpty(s, initial));
  }

  /** Without a process there is no memory. */
  predicate NoMemory(s: State) {
    !s.up ==> s.b == Buffers(s.b.rows, [], [], [], [])
  }

  // ---- every step, every run ----

  lemma AccountsOther(s: State, step: Step)
    requires Accounts(s) && s.up
    requires !step.Work? && !step.Dies? && !step.Consenting? && !step.Producing? && !step.Crash?
    ensures Accounts(NextUp(s, step))
  {
    AccountsUnmoved(s, NextUp(s, step));
  }

  lemma AccountsUp(s: State, step: Step)
    requires Order(s) && Accounts(s) && s.up
    ensures Accounts(NextUp(s, step))
  {
    match step
    case Work(ok, fault) =>
      if Moves(s.k.w.pc) { AccountsMoving(s, ok, fault); } else { AccountsQuiet(s, ok); }
    case Dies => AccountsDied(s);
    case Consenting(ok) => AccountsConsent(s, ok);
    case Producing => AccountsProducer(s);
    case Crash => AccountsCrashed(s);
    case _ => AccountsOther(s, step);
  }

  lemma NoMemoryStep(s: State, step: Step)
    requires NoMemory(s)
    ensures NoMemory(Next(s, step))
  {}

  lemma AccountsStep(s: State, step: Step)
    requires Order(s) && Accounts(s) && NoMemory(s)
    ensures Accounts(Next(s, step))
  {
    if s.up { AccountsUp(s, step); }
    else if step.Open? {
      if s.marker || step.initial != Granted { AccountsOpenedEmpty(s, step.initial); }
      else { AccountsOpenedGranted(s); }
    }
  }

  lemma {:induction false} AccountsAlways(cfg: Config, steps: seq<Step>)
    requires ValidConfig(cfg)
    ensures Accounts(Exec(Init(cfg), steps)) && NoMemory(Exec(Init(cfg), steps))
  {
    if steps == [] {
      assert Held(Init(cfg).b) == [];
    } else {
      var front := steps[..|steps| - 1];
      AccountsAlways(cfg, front);
      OrderAlways(cfg, front);
      AccountsStep(Exec(Init(cfg), front), steps[|steps| - 1]);
      NoMemoryStep(Exec(Init(cfg), front), steps[|steps| - 1]);
    }
  }

  // ---- what follows ----

  /** Every admitted event is held, or has met exactly one of four fates. */
  lemma EveryEventIsAccountedFor(s: State, x: nat)
    requires Reachable(s) && x < |s.log.admitted|
    ensures x in IdSet(Held(s.b)) || x in s.fate.acked || x in s.fate.invalid
            || x in s.fate.consentDropped || x in s.fate.lost
    ensures x in IdSet(Held(s.b)) ==> x !in Settled(s.fate)
    ensures x in s.fate.acked ==> x !in s.fate.invalid + s.fate.consentDropped + s.fate.lost
    ensures x in s.fate.invalid ==> x !in s.fate.consentDropped + s.fate.lost
    ensures x in s.fate.consentDropped ==> x !in s.fate.lost
  {
    var cfg, steps := ReachedBy(s);
    AccountsAlways(cfg, steps);
    assert x in IdSet(Held(s.b)) + Settled(s.fate);
    assert x in s.fate.acked ==> x in Acked(s.fate);
  }

  /** What was ever committed is still stored, or was acknowledged after a sink write that
      contained it returned Ok, or cannot be parsed and was quarantined, or was purged for
      want of consent. No crash, fault or restart loses it. */
  lemma AtLeastOnce(s: State, x: nat)
    requires Reachable(s) && x in s.fate.stored
    ensures || x in IdSet(s.b.rows)
            || (x in s.fate.acked && x in s.fate.wrote)
            || (x in s.fate.invalid && x < |s.log.admitted| && !s.log.admitted[x].payload.parses)
            || x in s.fate.consentDropped
    ensures x !in s.fate.lost
  {
    var cfg, steps := ReachedBy(s);
    AccountsAlways(cfg, steps);
    if x in IdSet(s.b.rows) {
      var e :| e in s.b.rows && e.id == x;
      assert e in Held(s.b);
    } else if x in s.fate.acked {
      assert x in Acked(s.fate);
    }
  }

  lemma StoredWorker(s: State, ok: bool, fault: FetchFault)
    ensures s.fate.stored <= WorkerNext(s, ok, fault).fate.stored
  {}

  lemma StoredGrows(s: State, step: Step)
    ensures s.fate.stored <= Next(s, step).fate.stored
  {
    if s.up && step.Work? { StoredWorker(s, step.ok, step.fault); }
  }

  /** In every step of every run a row leaves the store only by being acknowledged, after a sink
      write that contained it returned Ok, by being quarantined because it cannot be parsed, or
      by being purged for want of consent; and that is its only fate. */
  lemma RowsLeaveForAReason(s: State, step: Step, x: nat)
    requires Reachable(s) && x in IdSet(s.b.rows) && x !in IdSet(Next(s, step).b.rows)
    ensures x !in Settled(s.fate)
    ensures var s' := Next(s, step);
            || (x in s'.fate.acked && x in s'.fate.wrote)
            || (x in s'.fate.invalid && x < |s'.log.admitted| && !s'.log.admitted[x].payload.parses)
            || x in s'.fate.consentDropped
  {
    var cfg, steps := ReachedBy(s);
    AccountsAlways(cfg, steps);
    assert x in IdSet(Held(s.b)) by {
      var e :| e in s.b.rows && e.id == x;
      assert e in Held(s.b);
    }
    StoredGrows(s, step);
    StepReachable(s, step);
    AtLeastOnce(Next(s, step), x);
  }

  /** The worker's operation at this step reports a failure that committed nothing. */
  predicate Fails(pc: WorkerPc, ok: bool, fault: FetchFault) {
    match pc
    case Insert => !ok
    case Writing => !ok
    case Ack => !ok
    case PurgeStore => !ok
    case Fetch => fault.scanFails || fault.quarantineFails
    case _ => false
  }

  /** A failed insert, fetch, quarantine, sink write, acknowledgment or purge changes neither
      the stored rows nor the fate of any event, and every held event stays held. */
  lemma FailuresKeepRows(s: State, ok: bool, fault: FetchFault)
    requires Fails(s.k.w.pc, ok, fault)
    ensures var s' := WorkerNext(s, ok, fault);
            s'.b == s.b && s'.fate == s.fate && s'.marker == s.marker
  {}
}
