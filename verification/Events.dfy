/**
  * The events that travel through the pipeline and the order they keep.
  *
  * An event's identifier is a fresh random UUID in the program. Here it is a fresh natural
  * number, and the number chosen is the event's position in the global admission log, so
  * that distinct events have distinct identifiers and admission order can be read off them.
  */
module Events {

  datatype Kind = Custom | SessionStart | SessionEnd

  /** What the caller's payload turns out to be: `serializes` is the verdict of the JSON
      serializer, `parses` the verdict of the validity test applied to a stored row. */
  datatype Payload = Payload(serializes: bool, parses: bool)

  datatype Event = Event(
    id: nat,
    ordinal: nat,
    gen: nat,          // the consent generation in force at admission
    session: nat,
    sequence: nat,
    kind: Kind,
    payload: Payload)

  datatype Consent = Unknown | Denied | Granted

  datatype Code = Timeout | StorageError | SinkError | Internal | AlreadyShutdown

  datatype Status = Ok | Error(code: Code)

  function Min(a: nat, b: nat): nat {
    if a <= b then a else b
  }

  function Max(a: nat, b: nat): nat {
    if a <= b then b else a
  }

  /** Strictly increasing in admission order and in ordinal, hence free of duplicates. */
  predicate Ascending(es: seq<Event>) {
    forall i, j :: 0 <= i < j < |es| ==> es[i].id < es[j].id && es[i].ordinal < es[j].ordinal
  }

  predicate Increasing(ids: seq<nat>) {
    forall i, j :: 0 <= i < j < |ids| ==> ids[i] < ids[j]
  }

  function Ids(es: seq<Event>): (ids: seq<nat>)
    ensures |ids| == |es|
    ensures forall i :: 0 <= i < |es| ==> ids[i] == es[i].id
  {
    seq(|es|, i requires 0 <= i < |es| => es[i].id)
  }

  function IdSet(es: seq<Event>): set<nat> {
    set e | e in es :: e.id
  }

  /** Rows whose payload the sink can be given. */
  function Usable(es: seq<Event>): (us: seq<Event>) {
    if es == [] then []
    else if es[0].payload.parses then [es[0]] + Usable(es[1..])
    else Usable(es[1..])
  }

  /** Events of `es` whose identifier is not in `ids`. */
  function Without(es: seq<Event>, ids: set<nat>): (r: seq<Event>) {
    if es == [] then []
    else if es[0].id in ids then Without(es[1..], ids)
    else [es[0]] + Without(es[1..], ids)
  }

  lemma AscendingParts(a: seq<Event>, b: seq<Event>)
    requires Ascending(a + b)
    ensures Ascending(a) && Ascending(b)
    ensures forall x, y :: x in a && y in b ==> x.id < y.id && x.ordinal < y.ordinal
  {
    forall i, j | 0 <= i < j < |a| ensures a[i].id < a[j].id && a[i].ordinal < a[j].ordinal {
      assert (a + b)[i] == a[i] && (a + b)[j] == a[j];
    }
    forall i, j | 0 <= i < j < |b| ensures b[i].id < b[j].id && b[i].ordinal < b[j].ordinal {
      assert (a + b)[|a| + i] == b[i] && (a + b)[|a| + j] == b[j];
    }
    forall x, y | x in a && y in b ensures x.id < y.id && x.ordinal < y.ordinal {
      var i :| 0 <= i < |a| && a[i] == x;
      var j :| 0 <= j < |b| && b[j] == y;
      assert (a + b)[i] == x && (a + b)[|a| + j] == y;
    }
  }

  lemma AscendingJoin(a: seq<Event>, b: seq<Event>)
    requires Ascending(a) && Ascending(b)
    requires forall x, y :: x in a && y in b ==> x.id < y.id && x.ordinal < y.ordinal
    ensures Ascending(a + b)
  {
    forall i, j | 0 <= i < j < |a + b|
      ensures (a + b)[i].id < (a + b)[j].id && (a + b)[i].ordinal < (a + b)[j].ordinal
    {
      if i < |a| <= j {
        assert a[i] in a && b[j - |a|] in b;
      }
    }
  }
}
