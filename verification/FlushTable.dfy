/** What is remembered about flush tokens, as functions on the table. */
module FlushTable {
  import opened Events

  const RETAINED: nat := 256

  datatype Table = Table(
    issued: nat,                  // flush_seq_: tokens are 1..issued
    done: nat,                    // flush_done_
    results: map<nat, Status>,    // pass_results_
    finished: bool,
    terminal: bool)               // terminal_status_ is not ok

  const EMPTY := Table(0, 0, map[], false, false)

  function Issue(t: Table): Table {
    t.(issued := t.issued + 1)
  }

  /** `status` for every token in `first..last`. */
  function Entries(first: nat, last: nat, status: Status): (m: map<nat, Status>)
    requires first >= 1
    ensures forall k :: k in m <==> first <= k <= last
    ensures forall k :: k in m ==> m[k] == status
  {
    if last < first then map[] else Entries(first, last - 1, status)[last := status]
  }

  /** What bounded retention keeps when `top` is the newest token. */
  function Retain(m: map<nat, Status>, top: nat): map<nat, Status> {
    map k | k in m && k + RETAINED > top :: m[k]
  }

  /** A pass that latched `want` answers every token it covers. */
  function RecordPass(t: Table, handled: nat, want: nat, outcome: Status): Table {
    t.(results := Retain(t.results + Entries(handled + 1, want, outcome), want), done := want)
  }

  /** The worker's exit refuses every token no pass has answered. */
  function Finish(t: Table, handled: nat): Table {
    t.(results := Retain(t.results + Entries(handled + 1, t.issued, Error(AlreadyShutdown)), t.issued),
       done := t.issued, finished := true)
  }

  function Lookup(t: Table, token: nat): Status {
    if token in t.results then t.results[token]
    else if t.finished && forall k :: k in t.results ==> k < token then Error(AlreadyShutdown)
    else Error(Internal)
  }

  /** A waiter on `token` may return. */
  predicate Answerable(t: Table, token: nat) {
    t.done >= token || t.finished
  }

  /** What wait_flush hands to its caller. */
  function Answer(t: Table, token: nat): Status {
    if t.terminal then Error(Internal) else Lookup(t, token)
  }
}
