/** The worker's table of flush results, in place: recording, pruning and lookup. */
module PassResults {
  import opened Events
  import opened FlushTable

  /** The tokens first..last. */
  function Window(first: nat, last: nat): (keys: set<nat>)
    ensures forall k :: k in keys <==> first <= k <= last
    ensures first <= last + 1 ==> |keys| == last + 1 - first
    decreases last + 1 - first
  {
    if first > last then {} else {first} + Window(first + 1, last)
  }

  /** The oldest token on record when `done` is the newest. */
  function Lowest(done: nat): nat {
    if done + 1 > RETAINED then done + 1 - RETAINED else 1
  }

  lemma FilledWindow(m: map<nat, Status>, done: nat, top: nat, status: Status, filled: map<nat, Status>)
    requires done <= top && filled == m + Entries(done + 1, top, status)
    requires forall k :: k in m <==> 1 <= k <= done && k + RETAINED > done
    ensures forall k :: k in filled <==> Lowest(done) <= k <= top
  {}

  class Results {
    var issued: nat
    var done: nat
    var results: map<nat, Status>
    var finished: bool
    var terminal: bool

    constructor ()
      ensures State() == EMPTY && Valid()
    {
      issued, done, results, finished, terminal := 0, 0, map[], false, false;
    }

    function State(): Table
      reads this
    {
      Table(issued, done, results, finished, terminal)
    }

    /** The tokens on record are the newest 256 of those up to `done`. */
    ghost predicate Valid()
      reads this
    {
      done <= issued && forall k :: k in results <==> 1 <= k <= done && k + RETAINED > done
    }

    method SubmitFlush() returns (token: nat)
      requires Valid()
      modifies this`issued
      ensures Valid() && State() == Issue(old(State())) && token == issued
    {
      issued := issued + 1;
      token := issued;
    }

    /** prune_pass_results_locked: the oldest entry goes until 256 are left. */
    method Prune(ghost first: nat, ghost top: nat)
      requires first <= top + 1 && forall k :: k in results <==> first <= k <= top
      modifies this`results
      ensures results == Retain(old(results), top)
      ensures forall k :: k in results <==> first <= k <= top && k + RETAINED > top
    {
      ghost var low := first;
      while |results| > RETAINED
        invariant first <= low <= top + 1
        invariant forall k :: k in results <==> low <= k <= top
        invariant forall k :: k in results ==> k in old(results) && results[k] == old(results)[k]
        invariant low > first ==> low + RETAINED <= top + 1
        decreases top + 1 - low
      {
        assert results.Keys == Window(low, top);
        assert low in results;
        var oldest := Oldest(results);
        results := results - {oldest};
        low := low + 1;
      }
      assert results.Keys == Window(low, top);
    }

    /** The tokens since `handled` get `status`, and the oldest entries go. */
    method Record(handled: nat, top: nat, status: Status)
      requires forall k :: k in results <==> 1 <= k <= handled && k + RETAINED > handled
      requires handled <= top
      modifies this`results, this`done
      ensures results == Retain(old(results) + Entries(handled + 1, top, status), top) && done == top
      ensures forall k :: k in results <==> 1 <= k <= top && k + RETAINED > top
    {
      ghost var before := results;
      Fill(handled + 1, top, status);
      FilledWindow(before, handled, top, status, results);
      Prune(Lowest(handled), top);
      done := top;
    }

    /** A pass that latched `want` answers every token since `handled`. */
    method RecordOutcome(handled: nat, want: nat, outcome: Status)
      requires Valid() && !finished && handled == done && handled <= want <= issued
      modifies this`results, this`done
      ensures Valid() && State() == RecordPass(old(State()), handled, want, outcome)
    {
      Record(handled, want, outcome);
    }

    /** The worker's exit refuses the tokens no pass has reached. */
    method Exit(handled: nat)
      requires Valid() && !finished && handled == done
      modifies this`results, this`done, this`finished
      ensures Valid() && State() == Finish(old(State()), handled)
    {
      finished := true;
      Record(handled, issued, Error(AlreadyShutdown));
    }

    /** One entry for every token the pass answered. */
    method Fill(first: nat, last: nat, status: Status)
      requires first >= 1
      modifies this`results
      ensures results == old(results) + Entries(first, last, status)
    {
      var t := first;
      while t <= last
        invariant first <= t <= if first <= last then last + 1 else first
        invariant forall k :: k in results <==> k in old(results) || first <= k < t
        invariant forall k :: k in results ==>
                    results[k] == if first <= k < t then status else old(results)[k]
      {
        results := results[t := status];
        t := t + 1;
      }
      ghost var filled := old(results) + Entries(first, last, status);
      assert forall k :: k in results <==> k in filled;
      assert forall k :: k in results ==> results[k] == filled[k];
    }

    /** flush_result_locked. */
    method Result(token: nat) returns (status: Status)
      requires Valid()
      ensures status == Lookup(State(), token)
    {
      if token in results { return results[token]; }
      if finished && (results == map[] || token > Newest(results)) { return Error(AlreadyShutdown); }
      status := Error(Internal);
    }

    /** wait_flush, at the moment its wait ends: an answer is given exactly if the token's pass
        is over or the worker is gone, and pruning again changes nothing. */
    method WaitFlush(token: nat) returns (answered: bool, status: Status)
      requires Valid()
      modifies this`results
      ensures Valid() && State() == old(State())
      ensures answered <==> Answerable(State(), token)
      ensures answered ==> status == Answer(State(), token)
    {
      status := Ok;
      answered := done >= token || finished;
      if !answered { return; }
      if terminal { status := Error(Internal); } else { status := Result(token); }
      Prune(Lowest(done), done);
      assert results == old(results);
    }
  }

  /** The smallest key. */
  method Oldest(m: map<nat, Status>) returns (k: nat)
    requires m != map[]
    ensures k in m && forall j :: j in m ==> k <= j
  {
    var rest := m.Keys;
    k :| k in rest;
    rest := rest - {k};
    while rest != {}
      invariant k in m && rest <= m.Keys && forall j :: j in m ==> k <= j || j in rest
      decreases |rest|
    {
      var j :| j in rest;
      if j < k { k := j; }
      rest := rest - {j};
    }
  }

  /** The largest key. */
  function Newest(m: map<nat, Status>): (k: nat)
    requires m != map[]
    ensures k in m && forall j :: j in m ==> j <= k
  {
    LargestIn(m.Keys);
    var k :| k in m && forall j :: j in m ==> j <= k;
    k
  }

  lemma {:induction false} LargestIn(keys: set<nat>)
    requires keys != {}
    ensures exists k :: k in keys && forall j :: j in keys ==> j <= k
    decreases |keys|
  {
    var x :| x in keys;
    if keys != {x} {
      LargestIn(keys - {x});
      var k :| k in keys - {x} && forall j :: j in keys - {x} ==> j <= k;
      var top := if x < k then k else x;
      forall j | j in keys ensures j <= top {
        if j != x { assert j in keys - {x}; }
      }
      assert top in keys;
    }
  }
}
