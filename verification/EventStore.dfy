/**
  * The event store, in place: every change is a transaction that commits as a whole or leaves
  * the committed rows and the marker as they were. What SQLite itself does is assumed; where a
  * statement fails is a parameter.
  */
module EventStore {
  import opened Events
  import opened StoreSpec
  import opened Pipeline

  /** BEGIN fails, or the statement number `stepFails` fails (none if it is past the last), or
      COMMIT fails. */
  datatype Fault = Fault(beginFails: bool, stepFails: nat, commitFails: bool)

  predicate Runs(f: Fault, statements: nat) {
    !f.beginFails && f.stepFails >= statements && !f.commitFails
  }

  function IdsIn(ids: seq<nat>): set<nat> {
    set x | x in ids
  }

  /** The primary key: no two rows share an identifier. */
  predicate Distinct(es: seq<Event>) {
    forall i, j :: 0 <= i < j < |es| ==> es[i].id != es[j].id
  }

  class Store {
    var rows: seq<Event>      // committed
    var marker: bool          // committed
    var work: seq<Event>      // inside a transaction
    var workMarker: bool
    var busy: bool

    constructor ()
      ensures rows == [] && !marker && !busy
    {
      rows, marker, work, workMarker, busy := [], false, [], false, false;
    }

    method BeginImmediate(works: bool) returns (ok: bool)
      requires !busy
      modifies this`work, this`workMarker, this`busy
      ensures ok == works == busy
      ensures ok ==> work == rows && workMarker == marker
    {
      if works { work, workMarker, busy := rows, marker, true; }
      ok := works;
    }

    method Undo()
      modifies this`busy
      ensures !busy
    {
      busy := false;
    }

    method Commit(works: bool) returns (ok: bool)
      requires busy
      modifies this`rows, this`marker, this`busy
      ensures ok == works && !busy
      ensures rows == (if ok then work else old(rows)) && marker == (if ok then workMarker else old(marker))
    {
      if works { rows, marker := work, workMarker; }
      busy, ok := false, works;
    }

    /** All records or none, and a record whose identifier is stored already is ignored. */
    method Insert(records: seq<Event>, f: Fault) returns (ok: bool)
      requires !busy
      modifies this
      ensures !busy && marker == old(marker)
      ensures ok <==> records == [] || Runs(f, |records|)
      ensures rows == if ok then InsertIgnore(old(rows), records) else old(rows)
    {
      if records == [] { return true; }
      var begun := BeginImmediate(!f.beginFails);
      if !begun { return false; }
      for i := 0 to |records|
        invariant busy && i <= f.stepFails && rows == old(rows) && marker == old(marker) && workMarker == marker
        invariant InsertIgnore(work, records[i..]) == InsertIgnore(old(rows), records)
      {
        if i == f.stepFails { Undo(); return false; }
        assert records[i..][0] == records[i] && records[i..][1..] == records[i + 1..];
        if records[i].id !in IdSet(work) { work := work + [records[i]]; }
      }
      assert records[|records|..] == [];
      ok := Commit(!f.commitFails);
    }

    /** Deletes by identifier; `deleted` is the number of rows that were there. */
    method DeleteIds(ids: seq<nat>, f: Fault) returns (ok: bool, deleted: nat)
      requires !busy
      modifies this
      ensures !busy && marker == old(marker)
      ensures ok <==> ids == [] || Runs(f, |ids|)
      ensures rows == if ok then Without(old(rows), IdsIn(ids)) else old(rows)
      ensures deleted + |rows| == |old(rows)|
    {
      if ids == [] {
        WithoutNone(rows, IdsIn(ids));
        return true, 0;
      }
      deleted := 0;
      var begun := BeginImmediate(!f.beginFails);
      if !begun { return false, 0; }
      var removed: nat := 0;
      ghost var gone: set<nat> := {};
      WithoutNone(rows, {});
      for i := 0 to |ids|
        invariant busy && i <= f.stepFails && rows == old(rows) && marker == old(marker) && workMarker == marker
        invariant gone == IdsIn(ids[..i]) && work == Without(old(rows), gone)
        invariant removed + |work| == |old(rows)|
      {
        if i == f.stepFails { Undo(); return false, 0; }
        WithoutMore(old(rows), gone, ids[i]);
        WithoutMembers(work, {ids[i]});
        var left := Without(work, {ids[i]});
        removed := removed + (|work| - |left|);
        work := left;
        gone := gone + {ids[i]};
        assert ids[..i + 1] == ids[..i] + [ids[i]];
      }
      assert ids[..|ids|] == ids && gone == IdsIn(ids);
      ok := Commit(!f.commitFails);
      if ok { deleted := removed; }
    }

    /** acknowledge: an error can follow a deletion that was committed, when some of the rows
        were missing. */
    method Acknowledge(ids: seq<nat>, f: Fault) returns (ok: bool, deleted: nat)
      requires !busy
      modifies this
      ensures !busy && marker == old(marker) && deleted + |rows| == |old(rows)|
      ensures ids == [] || Runs(f, |ids|) ==> rows == Without(old(rows), IdsIn(ids)) && (ok <==> deleted == |ids|)
      ensures !(ids == [] || Runs(f, |ids|)) ==> !ok && rows == old(rows)
    {
      ok, deleted := DeleteIds(ids, f);
      if !ok { return false, deleted; }
      ok := deleted == |ids|;
    }

    /** The oldest rows, oldest first, and the removal of those that cannot be used. The select
        hands out the rows in ordinal order; `fault` says where it or the removal fails. */
    method Fetch(limit: nat, fault: FetchFault) returns (result: FetchResult)
      requires !busy && Distinct(rows)
      modifies this
      ensures !busy && marker == old(marker)
      ensures result == FetchPending(old(rows), limit, fault) && rows == result.rows
    {
      OrderByOrdinalLength(rows);
      var cursor := OrderByOrdinal(rows);
      var n := Scanned(rows, limit, fault);
      var events: seq<Event>, corrupt: seq<Event> := [], [];
      for i := 0 to n
        invariant |cursor| == |rows| && rows == old(rows) && marker == old(marker) && !busy
        invariant events == Usable(cursor[..i]) && corrupt == Unusable(cursor[..i])
      {
        UsableLast(cursor[..i], cursor[i]);
        assert cursor[..i + 1] == cursor[..i] + [cursor[i]];
        if cursor[i].payload.parses { events := events + [cursor[i]]; }
        else { corrupt := corrupt + [cursor[i]]; }
      }
      if fault.scanFails { return FetchResult(rows, events, 0, Error(StorageError)); }
      if corrupt == [] { return FetchResult(rows, events, 0, Ok); }
      var ok, removed := DeleteIds(Ids(corrupt), Fault(fault.quarantineFails, |corrupt|, false));
      IdsAsSet(corrupt);
      QuarantineCounts(old(rows), n);
      if ok && removed == |corrupt| { return FetchResult(rows, events, removed, Error(StorageError)); }
      result := FetchResult(rows, events, 0, Error(StorageError));
    }

    method MarkRevocationPending(f: Fault) returns (ok: bool)
      requires !busy
      modifies this
      ensures !busy && rows == old(rows) && (ok <==> Runs(f, 1)) && marker == (ok || old(marker))
    {
      var begun := BeginImmediate(!f.beginFails);
      if !begun { return false; }
      if f.stepFails == 0 { Undo(); return false; }
      workMarker := true;
      ok := Commit(!f.commitFails);
    }

    /** The rows and the marker vanish in one transaction, or both stay. */
    method PurgeAndClearRevocation(f: Fault) returns (ok: bool, deleted: nat)
      requires !busy
      modifies this
      ensures !busy && (ok <==> Runs(f, 2))
      ensures ok ==> rows == [] && !marker && deleted == |old(rows)|
      ensures !ok ==> rows == old(rows) && marker == old(marker) && deleted == 0
    {
      deleted := 0;
      var begun := BeginImmediate(!f.beginFails);
      if !begun { return false, 0; }
      if f.stepFails == 0 { Undo(); return false, 0; }
      var removed := |work|;
      work := [];
      if f.stepFails == 1 { Undo(); return false, 0; }
      workMarker := false;
      ok := Commit(!f.commitFails);
      if ok { deleted := removed; }
    }
  }

  lemma {:induction false} WithoutMore(es: seq<Event>, ids: set<nat>, x: nat)
    ensures Without(Without(es, ids), {x}) == Without(es, ids + {x})
  {
    if es != [] {
      WithoutMore(es[1..], ids, x);
    }
  }

  lemma IdsAsSet(es: seq<Event>)
    ensures IdsIn(Ids(es)) == IdSet(es)
  {
    forall x | x in IdSet(es) ensures x in Ids(es) {
      var i :| 0 <= i < |es| && es[i].id == x;
      assert Ids(es)[i] == x;
    }
  }

  lemma {:induction false} UsableLast(es: seq<Event>, e: Event)
    ensures Usable(es + [e]) == Usable(es) + (if e.payload.parses then [e] else [])
    ensures Unusable(es + [e]) == Unusable(es) + (if e.payload.parses then [] else [e])
  {
    if es == [] {
      assert es + [e] == [e];
    } else {
      assert (es + [e])[1..] == es[1..] + [e];
      UsableLast(es[1..], e);
    }
  }

  // ---- the rows that are found unusable are rows, and each is removed once ----

  lemma {:induction false} InsertInOrderKeeps(e: Event, es: seq<Event>)
    requires Distinct(es) && e.id !in IdSet(es)
    ensures Distinct(InsertInOrder(e, es)) && IdSet(InsertInOrder(e, es)) == IdSet(es) + {e.id}
  {
    if es == [] || e.ordinal < es[0].ordinal {
      IdSetCons(e, es);
    } else {
      IdSetCons(es[0], es[1..]);
      assert es == [es[0]] + es[1..];
      assert es[0].id !in IdSet(es[1..]);
      InsertInOrderKeeps(e, es[1..]);
      IdSetCons(es[0], InsertInOrder(e, es[1..]));
    }
  }

  lemma IdSetCons(e: Event, es: seq<Event>)
    ensures IdSet([e] + es) == {e.id} + IdSet(es)
    ensures Distinct(es) && e.id !in IdSet(es) ==> Distinct([e] + es)
  {
    assert e in [e] + es;
    assert forall x :: x in es ==> x in [e] + es;
    if Distinct(es) && e.id !in IdSet(es) {
      forall i, j | 0 <= i < j < |[e] + es| ensures ([e] + es)[i].id != ([e] + es)[j].id {
        assert es[j - 1] in es;
      }
    }
  }

  lemma {:induction false} OrderKeeps(rows: seq<Event>)
    requires Distinct(rows)
    ensures Distinct(OrderByOrdinal(rows)) && IdSet(OrderByOrdinal(rows)) == IdSet(rows)
  {
    if rows != [] {
      var front, last := rows[..|rows| - 1], rows[|rows| - 1];
      OrderKeeps(front);
      assert last.id !in IdSet(front);
      InsertInOrderKeeps(last, OrderByOrdinal(front));
      assert rows == front + [last];
      assert IdSet(rows) == IdSet(front) + {last.id};
    }
  }

  lemma {:induction false} UnusableDistinct(es: seq<Event>)
    requires Distinct(es)
    ensures Distinct(Unusable(es)) && IdSet(Unusable(es)) <= IdSet(es)
  {
    if es != [] {
      assert es == [es[0]] + es[1..];
      IdSetCons(es[0], es[1..]);
      UnusableDistinct(es[1..]);
      assert es[0].id !in IdSet(es[1..]);
      if !es[0].payload.parses { IdSetCons(es[0], Unusable(es[1..])); }
    }
  }

  lemma {:induction false} IdSetSize(es: seq<Event>)
    requires Distinct(es)
    ensures |IdSet(es)| == |es|
  {
    if es != [] {
      assert es == [es[0]] + es[1..];
      IdSetCons(es[0], es[1..]);
      assert es[0].id !in IdSet(es[1..]);
      IdSetSize(es[1..]);
    }
  }

  lemma {:induction false} WithoutSize(rows: seq<Event>, ids: set<nat>)
    requires Distinct(rows) && ids <= IdSet(rows)
    ensures |Without(rows, ids)| + |ids| == |rows|
  {
    if rows != [] {
      var e, rest := rows[0], rows[1..];
      assert rows == [e] + rest;
      IdSetCons(e, rest);
      assert e.id !in IdSet(rest);
      WithoutOther(rest, ids, e.id);
      WithoutSize(rest, ids - {e.id});
    }
  }

  lemma {:induction false} WithoutOther(es: seq<Event>, ids: set<nat>, x: nat)
    requires x !in IdSet(es)
    ensures Without(es, ids) == Without(es, ids - {x})
  {
    if es != [] {
      assert es[0] in es;
      assert forall e :: e in es[1..] ==> e in es;
      WithoutOther(es[1..], ids, x);
    }
  }

  lemma QuarantineCounts(rows: seq<Event>, n: nat)
    requires Distinct(rows) && n <= |rows| == |OrderByOrdinal(rows)|
    ensures var bad := Unusable(OrderByOrdinal(rows)[..n]); |Without(rows, IdSet(bad))| + |bad| == |rows|
  {
    var seen := OrderByOrdinal(rows)[..n];
    OrderKeeps(rows);
    assert forall e :: e in seen ==> e in OrderByOrdinal(rows);
    UnusableDistinct(seen);
    IdSetSize(Unusable(seen));
    WithoutSize(rows, IdSet(Unusable(seen)));
  }

  // ---- what an acknowledgment counts ----

  lemma {:induction false} WithoutRows(rows: seq<Event>, ids: set<nat>, known: set<nat>)
    requires IdSet(rows) <= known
    ensures Without(rows, ids) == Without(rows, ids * known)
  {
    if rows != [] {
      assert rows[0] in rows;
      assert forall e :: e in rows[1..] ==> e in rows;
      WithoutRows(rows[1..], ids, known);
    }
  }

  lemma {:induction false} RemovedIds(rows: seq<Event>, batch: seq<Event>)
    requires Distinct(batch)
    ensures Distinct(Removed(rows, batch)) && IdSet(Removed(rows, batch)) == IdSet(batch) * IdSet(rows)
  {
    if batch != [] {
      assert batch == [batch[0]] + batch[1..];
      IdSetCons(batch[0], batch[1..]);
      assert batch[0].id !in IdSet(batch[1..]);
      RemovedIds(rows, batch[1..]);
      IdSetCons(batch[0], Removed(rows, batch[1..]));
    }
  }

  /** The rows that go are the events of the batch that were still stored, each counted once. */
  lemma AcknowledgeCounts(rows: seq<Event>, batch: seq<Event>)
    requires Distinct(rows) && Distinct(batch)
    ensures |Without(rows, IdSet(batch))| + |Removed(rows, batch)| == |rows|
  {
    var both := IdSet(batch) * IdSet(rows);
    WithoutRows(rows, IdSet(batch), IdSet(rows));
    RemovedIds(rows, batch);
    IdSetSize(Removed(rows, batch));
    WithoutSize(rows, both);
  }
}
