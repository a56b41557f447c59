/**
  * Flush tokens: for every interleaving of submissions, coalesced passes, pruning and the
  * worker's exit, a lookup answers for its own token only.
  */
module PipelineTokens {
  import opened Events
  import opened StoreSpec
  import opened FlushTable
  import opened Pipeline
  import opened PipelineFlow

  /** Between two passes the worker has answered exactly the tokens up to `handled`. */
  predicate PassOk(table: Table, pc: WorkerPc, pass: Pass) {
    && pass.handled <= pass.want <= table.issued
    && (!pc.Exited? ==> table.done == pass.handled && !table.finished)
    && (pc.Exited? ==> table.finished)
  }

  /** Each token up to `done` has one outcome on record; those no pass reached were refused. */
  predicate RecordOk(f: Flush) {
    && |f.captured| == f.table.issued
    && f.table.done <= f.table.issued
    && (forall k :: k in f.recorded ==> 1 <= k <= f.table.done)
    && (forall k :: 1 <= k <= f.table.done ==> k in f.recorded)
    && f.serviced <= f.table.done && (!f.table.finished ==> f.serviced == f.table.done)
    && (forall k :: k in f.recorded && k > f.serviced ==> f.recorded[k] == Error(AlreadyShutdown))
  }

  /** The table is what bounded retention leaves of the record. */
  predicate RetentionOk(f: Flush) {
    f.table.results == Retain(f.recorded, f.table.done)
  }

  predicate Tokens(s: State) {
    s.up ==> PassOk(s.k.flush.table, s.k.w.pc, s.k.w.pass) && RecordOk(s.k.flush) && RetentionOk(s.k.flush)
  }

  // ---- the two ways the table is written ----

  /** Recording a pass and pruning is the same as pruning the longer record. */
  lemma RetainMore(recorded: map<nat, Status>, done: nat, more: map<nat, Status>, top: nat)
    requires done <= top
    ensures Retain(Retain(recorded, done) + more, top) == Retain(recorded + more, top)
  {}

  lemma RecordAnswers(f: Flush, pass: Pass)
    requires RecordOk(f) && !f.table.finished
    requires f.table.done == pass.handled <= pass.want <= f.table.issued
    ensures RecordOk(Answers(f, pass))
  {}

  lemma RetentionAnswers(f: Flush, pass: Pass)
    requires RetentionOk(f) && f.table.done <= pass.want
    ensures RetentionOk(Answers(f, pass))
  {
    RetainMore(f.recorded, f.table.done, Entries(pass.handled + 1, pass.want, pass.outcome), pass.want);
  }

  lemma RecordRefuses(f: Flush, handled: nat)
    requires RecordOk(f) && !f.table.finished && f.table.done == handled
    ensures RecordOk(Refuses(f, handled))
  {}

  lemma RetentionRefuses(f: Flush, handled: nat)
    requires RetentionOk(f) && f.table.done <= f.table.issued
    ensures RetentionOk(Refuses(f, handled))
  {
    RetainMore(f.recorded, f.table.done,
               Entries(handled + 1, f.table.issued, Error(AlreadyShutdown)), f.table.issued);
  }

  lemma IssueOk(f: Flush, ordinal: nat)
    requires RecordOk(f) && RetentionOk(f)
    ensures var f' := f.(table := Issue(f.table), captured := f.captured + [ordinal]);
            RecordOk(f') && RetentionOk(f')
  {}

  // ---- every step ----

  /** The same tokens with the same answers, whatever became of the error slot. */
  predicate SameTokens(f: Flush, f': Flush) {
    && f'.table == f.table && f'.captured == f.captured && f'.recorded == f.recorded
    && f'.serviced == f.serviced
  }

  /** Apart from the two steps that write the table, the worker only touches the error slot. */
  lemma QuietFlush(s: State, ok: bool)
    requires !Moves(s.k.w.pc) && !s.k.w.pc.RecordOutcome? && !s.k.w.pc.Exiting?
    ensures QuietNext(s, ok).flush == s.k.flush.(pendingError := QuietNext(s, ok).flush.pendingError)
  {}

  lemma QuietPass(s: State, ok: bool)
    requires !Moves(s.k.w.pc) && !s.k.w.pc.RecordOutcome?
    ensures QuietNext(s, ok).w.pass.handled == s.k.w.pass.handled
  {
    match s.k.w.pc
    case Top =>
    case AfterDeliver =>
    case SettleAck =>
    case PurgeReset =>
    case CheckQueue =>
    case CheckRetry =>
    case CheckStore =>
    case _ =>
  }

  lemma QuietWant(s: State, ok: bool)
    requires !Moves(s.k.w.pc)
    ensures QuietNext(s, ok).w.pass.want
            == if s.k.w.pc.Top? then s.k.flush.table.issued else s.k.w.pass.want
  {
    match s.k.w.pc
    case Top =>
    case RecordOutcome =>
    case AfterDeliver =>
    case SettleAck =>
    case PurgeReset =>
    case CheckQueue =>
    case CheckRetry =>
    case CheckStore =>
    case _ =>
  }

  lemma MovingFlush(s: State, ok: bool, fault: FetchFault)
    requires Moves(s.k.w.pc)
    ensures var f := MovingNext(s, ok, fault).k.flush;
            f == s.k.flush.(pendingError := f.pendingError)
  {}

  lemma MovingPass(s: State, ok: bool, fault: FetchFault)
    requires Moves(s.k.w.pc)
    ensures var pass := MovingNext(s, ok, fault).k.w.pass;
            pass == s.k.w.pass.(delivered := pass.delivered, moved := pass.moved)
  {
    match s.k.w.pc
    case Pop =>
    case TakeRetry =>
    case DiscardBatch =>
    case Sift =>
    case Insert =>
    case DiscardKeep =>
    case Hold =>
    case Fetch =>
    case Writing =>
    case Ack =>
    case PurgeStore =>
  }

  lemma TokensKept(s: State, s': State)
    requires Tokens(s) && s.up && SameTokens(s.k.flush, s'.k.flush)
    requires PassOk(s.k.flush.table, s'.k.w.pc, s'.k.w.pass)
    ensures Tokens(s')
  {}

  lemma TokensWorker(s: State, ok: bool, fault: FetchFault)
    requires Tokens(s) && s.up
    ensures Tokens(WorkerNext(s, ok, fault))
  {
    if Moves(s.k.w.pc) {
      MovingFlow(s, ok, fault);
      MovingFlush(s, ok, fault);
      MovingPass(s, ok, fault);
      TokensKept(s, MovingNext(s, ok, fault));
    } else if s.k.w.pc.RecordOutcome? {
      RecordAnswers(s.k.flush, s.k.w.pass);
      RetentionAnswers(s.k.flush, s.k.w.pass);
    } else if s.k.w.pc.Exiting? {
      RecordRefuses(s.k.flush, s.k.w.pass.handled);
      RetentionRefuses(s.k.flush, s.k.w.pass.handled);
    } else {
      QuietFlow(s, ok);
      QuietFlush(s, ok);
      QuietPass(s, ok);
      QuietWant(s, ok);
      TokensKept(s, s.(k := QuietNext(s, ok)));
    }
  }

  lemma TokensDied(s: State)
    requires Tokens(s) && s.up && WorkerAlive(s)
    ensures Tokens(WorkerDied(s))
  {}

  lemma TokensIssued(s: State, ordinal: nat)
    requires Tokens(s) && s.up
    ensures Tokens(TokenIssued(s, ordinal))
  {
    IssueOk(s.k.flush, ordinal);
  }

  lemma OthersFlush(s: State, step: Step)
    requires s.up && !step.Work? && !step.Dies? && !step.IssueToken? && !step.Crash?
    ensures var s' := NextUp(s, step);
            && s'.k.w == s.k.w
            && SameTokens(s.k.flush, s'.k.flush)
  {}

  lemma TokensUp(s: State, step: Step)
    requires Tokens(s) && s.up
    ensures Tokens(NextUp(s, step))
  {
    match step
    case Work(ok, fault) => TokensWorker(s, ok, fault);
    case Dies => if WorkerAlive(s) { TokensDied(s); }
    case IssueToken(o) => if o <= s.k.flush.barrier { TokensIssued(s, o); }
    case Crash =>
    case _ => OthersFlush(s, step);
  }

  lemma TokensOpened(s: State, step: Step)
    requires !s.up
    ensures Tokens(Next(s, step))
  {}

  lemma {:induction false} TokensAlways(cfg: Config, steps: seq<Step>)
    ensures Tokens(Exec(Init(cfg), steps))
  {
    if steps != [] {
      var front := steps[..|steps| - 1];
      TokensAlways(cfg, front);
      var s := Exec(Init(cfg), front);
      if s.up { TokensUp(s, steps[|steps| - 1]); } else { TokensOpened(s, steps[|steps| - 1]); }
    }
  }

  // ---- what a lookup means ----

  /** The answer to `token`, from the record alone. */
  function Meaning(f: Flush, token: nat): Status {
    if token in f.recorded && token + RETAINED > f.table.done then f.recorded[token]
    else if token > f.table.done && f.table.finished then Error(AlreadyShutdown)
    else Error(Internal)
  }

  lemma LookupMeans(f: Flush, token: nat)
    requires RecordOk(f) && RetentionOk(f) && token >= 1
    ensures Lookup(f.table, token) == Meaning(f, token)
  {
    if token in f.table.results {
    } else if token > f.table.done {
    } else {
      if f.table.done >= 1 { assert f.table.done in f.table.results; }
    }
  }

  /** A lookup returns exactly what the pass that covered the token recorded; the newest 256
      answered tokens are always there and older ones report Internal; Ok is returned only if
      a pass ran for this very token and recorded Ok. */
  lemma TokensAnswerForThemselves(s: State, token: nat)
    requires Reachable(s) && s.up && 1 <= token <= s.k.flush.table.issued
    ensures var f := s.k.flush;
            && (token <= f.table.done && token + RETAINED > f.table.done ==>
                  token in f.recorded && Lookup(f.table, token) == f.recorded[token])
            && (token + RETAINED <= f.table.done ==> Lookup(f.table, token) == Error(Internal))
            && (Lookup(f.table, token) == Ok ==>
                  token <= f.serviced && token in f.recorded && f.recorded[token] == Ok)
            && (Answer(f.table, token) == Ok ==> !f.table.terminal && Lookup(f.table, token) == Ok)
  {
    var cfg, steps := ReachedBy(s);
    TokensAlways(cfg, steps);
    LookupMeans(s.k.flush, token);
  }

  /** After the worker's exit a token that no pass ran for reports AlreadyShutdown exactly when
      it is not among the refusals that retention has discarded: an exit that refuses more
      than 256 tokens makes the oldest of them report Internal instead. */
  lemma NeverRunTokens(s: State, token: nat)
    requires Reachable(s) && s.up
    requires s.k.flush.table.finished && s.k.flush.serviced < token <= s.k.flush.table.issued
    ensures var f := s.k.flush;
            && (Lookup(f.table, token) == Error(AlreadyShutdown) <==> token + RETAINED > f.table.done)
            && (token + RETAINED <= f.table.done ==> Lookup(f.table, token) == Error(Internal))
  {
    var cfg, steps := ReachedBy(s);
    TokensAlways(cfg, steps);
    LookupMeans(s.k.flush, token);
  }

  /** What is on record stays on record: no later pass, pruning or exit rewrites it. */
  lemma RecordIsFinal(s: State, step: Step, token: nat)
    requires Tokens(s) && s.up && Next(s, step).up && token in s.k.flush.recorded
    ensures var f := Next(s, step).k.flush;
            token in f.recorded && f.recorded[token] == s.k.flush.recorded[token]
  {
    if step.Work? {
      if Moves(s.k.w.pc) { MovingFlush(s, step.ok, step.fault); }
      else if !s.k.w.pc.RecordOutcome? && !s.k.w.pc.Exiting? { QuietFlush(s, step.ok); }
    } else if !step.Dies? && !step.IssueToken? && !step.Crash? {
      OthersFlush(s, step);
    }
  }
}
