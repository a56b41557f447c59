/**
  * What the statements of the event store compute, as functions on the committed rows.
  * The transactions that run them are in `EventStore`.
  */
module StoreSpec {
  import opened Events

  /** INSERT OR IGNORE, one record after the other. */
  function InsertIgnore(rows: seq<Event>, records: seq<Event>): seq<Event>
    decreases records
  {
    if records == [] then rows
    else if records[0].id in IdSet(rows) then InsertIgnore(rows, records[1..])
    else InsertIgnore(rows + [records[0]], records[1..])
  }

  function InsertInOrder(e: Event, es: seq<Event>): seq<Event> {
    if es == [] || e.ordinal < es[0].ordinal then [e] + es
    else [es[0]] + InsertInOrder(e, es[1..])
  }

  /** ORDER BY ordinal. */
  function OrderByOrdinal(rows: seq<Event>): seq<Event> {
    if rows == [] then []
    else InsertInOrder(rows[|rows| - 1], OrderByOrdinal(rows[..|rows| - 1]))
  }

  /** SELECT COALESCE(MAX(ordinal), 0). */
  function MaxOrdinal(rows: seq<Event>): nat {
    if rows == [] then 0 else Max(MaxOrdinal(rows[..|rows| - 1]), rows[|rows| - 1].ordinal)
  }

  /** SELECT COUNT(*) WHERE ordinal <= barrier. */
  function CountUpTo(rows: seq<Event>, barrier: nat): nat {
    if rows == [] then 0
    else CountUpTo(rows[1..], barrier) + if rows[0].ordinal <= barrier then 1 else 0
  }

  function Unusable(es: seq<Event>): seq<Event> {
    if es == [] then []
    else if es[0].payload.parses then Unusable(es[1..])
    else [es[0]] + Unusable(es[1..])
  }

  datatype FetchResult = FetchResult(
    rows: seq<Event>,        // the committed rows afterwards
    events: seq<Event>,
    quarantined: nat,
    status: Status)

  /** What may go wrong in a fetch: the scan may stop after `stopAt` rows, and the
      transaction that removes unusable rows may fail. */
  datatype FetchFault = FetchFault(scanFails: bool, stopAt: nat, quarantineFails: bool)

  const NO_FAULT := FetchFault(false, 0, false)

  function Scanned(rows: seq<Event>, limit: nat, fault: FetchFault): (k: nat)
    ensures k <= |rows|
  {
    var wanted := Min(limit, |rows|);
    if fault.scanFails then Min(fault.stopAt, wanted) else wanted
  }

  lemma InsertInOrderLength(e: Event, es: seq<Event>)
    ensures |InsertInOrder(e, es)| == |es| + 1
  {}

  lemma OrderByOrdinalLength(rows: seq<Event>)
    ensures |OrderByOrdinal(rows)| == |rows|
  {
    if rows != [] {
      InsertInOrderLength(rows[|rows| - 1], OrderByOrdinal(rows[..|rows| - 1]));
    }
  }

  /** SELECT ... ORDER BY ordinal LIMIT ?, then the quarantine of unusable rows. */
  function FetchPending(rows: seq<Event>, limit: nat, fault: FetchFault): FetchResult {
    OrderByOrdinalLength(rows);
    var seen := OrderByOrdinal(rows)[..Scanned(rows, limit, fault)];
    var bad := Unusable(seen);
    if fault.scanFails then
      FetchResult(rows, Usable(seen), 0, Error(StorageError))
    else if bad == [] then
      FetchResult(rows, Usable(seen), 0, Ok)
    else if fault.quarantineFails then
      FetchResult(rows, Usable(seen), 0, Error(StorageError))
    else
      FetchResult(Without(rows, IdSet(bad)), Usable(seen), |bad|, Error(StorageError))
  }

  // ---- the same statements on rows that are already in ordinal order ----

  lemma {:induction false} InsertInOrderAppends(e: Event, es: seq<Event>)
    requires forall x :: x in es ==> x.ordinal < e.ordinal
    ensures InsertInOrder(e, es) == es + [e]
  {
    if es != [] {
      assert es[0] in es;
      InsertInOrderAppends(e, es[1..]);
      assert es == [es[0]] + es[1..];
    }
  }

  /** Rows kept in ascending order are fetched in the order they are stored. */
  lemma {:induction false} OrderedAlready(rows: seq<Event>)
    requires Ascending(rows)
    ensures OrderByOrdinal(rows) == rows
  {
    if rows != [] {
      var front, last := rows[..|rows| - 1], rows[|rows| - 1];
      OrderedAlready(front);
      forall x | x in front ensures x.ordinal < last.ordinal {
        var i :| 0 <= i < |front| && front[i] == x;
        assert rows[i] == x;
      }
      InsertInOrderAppends(last, front);
      assert rows == front + [last];
    }
  }

  /** INSERT OR IGNORE ignores nothing when every identifier is new. */
  lemma {:induction false} InsertFresh(rows: seq<Event>, records: seq<Event>)
    requires Ascending(rows + records)
    ensures InsertIgnore(rows, records) == rows + records
    decreases records
  {
    if records == [] {
      assert rows + records == rows;
    } else {
      var e := records[0];
      AscendingParts(rows, records);
      assert e in records;
      assert e.id !in IdSet(rows);
      assert (rows + [e]) + records[1..] == rows + records;
      InsertFresh(rows + [e], records[1..]);
    }
  }

  lemma {:induction false} UsableSplit(es: seq<Event>)
    ensures |Usable(es)| + |Unusable(es)| == |es|
    ensures forall e :: e in Usable(es) <==> e in es && e.payload.parses
    ensures forall e :: e in Unusable(es) <==> e in es && !e.payload.parses
  {
    if es != [] {
      UsableSplit(es[1..]);
      assert es == [es[0]] + es[1..];
    }
  }

  lemma {:induction false} UsableAscending(es: seq<Event>)
    requires Ascending(es)
    ensures Ascending(Usable(es))
  {
    if es != [] {
      assert es == [es[0]] + es[1..];
      AscendingParts([es[0]], es[1..]);
      UsableAscending(es[1..]);
      UsableSplit(es[1..]);
      AscendingJoin([es[0]], Usable(es[1..]));
    }
  }

  lemma {:induction false} WithoutMembers(es: seq<Event>, ids: set<nat>)
    ensures forall e :: e in Without(es, ids) <==> e in es && e.id !in ids
    ensures |Without(es, ids)| <= |es|
  {
    if es != [] {
      WithoutMembers(es[1..], ids);
      assert es == [es[0]] + es[1..];
    }
  }

  lemma {:induction false} WithoutAscending(es: seq<Event>, ids: set<nat>)
    requires Ascending(es)
    ensures Ascending(Without(es, ids))
  {
    if es != [] {
      assert es == [es[0]] + es[1..];
      AscendingParts([es[0]], es[1..]);
      WithoutAscending(es[1..], ids);
      WithoutMembers(es[1..], ids);
      AscendingJoin([es[0]], Without(es[1..], ids));
    }
  }

  lemma {:induction false} WithoutConcat(a: seq<Event>, b: seq<Event>, ids: set<nat>)
    ensures Without(a + b, ids) == Without(a, ids) + Without(b, ids)
  {
    if a == [] {
      assert a + b == b;
    } else {
      assert (a + b)[1..] == a[1..] + b;
      WithoutConcat(a[1..], b, ids);
    }
  }

  lemma {:induction false} CountUpToZero(rows: seq<Event>, barrier: nat)
    ensures CountUpTo(rows, barrier) == 0 <==> forall e :: e in rows ==> e.ordinal > barrier
  {
    if rows != [] {
      CountUpToZero(rows[1..], barrier);
      assert rows == [rows[0]] + rows[1..];
    }
  }

  lemma {:induction false} MaxOrdinalBounds(rows: seq<Event>)
    ensures forall e :: e in rows ==> e.ordinal <= MaxOrdinal(rows)
    ensures rows == [] ==> MaxOrdinal(rows) == 0
    ensures rows != [] ==> exists e :: e in rows && e.ordinal == MaxOrdinal(rows)
  {
    if rows != [] {
      var front, last := rows[..|rows| - 1], rows[|rows| - 1];
      MaxOrdinalBounds(front);
      assert rows == front + [last];
      if front != [] && MaxOrdinal(front) > last.ordinal {
        var e :| e in front && e.ordinal == MaxOrdinal(front);
        assert e in rows;
      } else {
        assert last in rows;
      }
    }
  }

  // ---- acknowledging, or quarantining, within the oldest rows ----

  lemma {:induction false} WithoutUsable(es: seq<Event>, ids: set<nat>)
    requires forall e :: e in es ==> (e.id in ids <==> e.payload.parses)
    ensures Without(es, ids) == Unusable(es)
  {
    if es != [] {
      assert es[0] in es;
      WithoutUsable(es[1..], ids);
    }
  }

  lemma {:induction false} WithoutUnusable(es: seq<Event>, ids: set<nat>)
    requires forall e :: e in es ==> (e.id in ids <==> !e.payload.parses)
    ensures Without(es, ids) == Usable(es)
  {
    if es != [] {
      assert es[0] in es;
      WithoutUnusable(es[1..], ids);
    }
  }

  lemma {:induction false} WithoutNone(es: seq<Event>, ids: set<nat>)
    requires forall e :: e in es ==> e.id !in ids
    ensures Without(es, ids) == es
  {
    if es != [] {
      assert es[0] in es;
      WithoutNone(es[1..], ids);
    }
  }

  /** Removing the usable rows among the first `k`. */
  lemma RemoveUsable(rows: seq<Event>, k: nat)
    requires Ascending(rows) && k <= |rows|
    ensures Without(rows, IdSet(Usable(rows[..k]))) == Unusable(rows[..k]) + rows[k..]
  {
    var head, rest, ids := rows[..k], rows[k..], IdSet(Usable(rows[..k]));
    assert rows == head + rest;
    AscendingParts(head, rest);
    UsableSplit(head);
    DistinctIds(head);
    WithoutConcat(head, rest, ids);
    WithoutUsable(head, ids);
    WithoutNone(rest, ids);
  }

  /** Removing the unusable rows among the first `k`. */
  lemma RemoveUnusable(rows: seq<Event>, k: nat)
    requires Ascending(rows) && k <= |rows|
    ensures Without(rows, IdSet(Unusable(rows[..k]))) == Usable(rows[..k]) + rows[k..]
  {
    var head, rest, ids := rows[..k], rows[k..], IdSet(Unusable(rows[..k]));
    assert rows == head + rest;
    AscendingParts(head, rest);
    UsableSplit(head);
    DistinctIds(head);
    WithoutConcat(head, rest, ids);
    WithoutUnusable(head, ids);
    WithoutNone(rest, ids);
  }

  lemma DistinctIds(es: seq<Event>)
    requires Ascending(es)
    ensures forall x, y :: x in es && y in es && x.id == y.id ==> x == y
  {}

  lemma {:induction false} UsableAll(es: seq<Event>)
    requires forall e :: e in es ==> e.payload.parses
    ensures Usable(es) == es
  {
    if es != [] {
      assert es[0] in es;
      UsableAll(es[1..]);
    }
  }
}
