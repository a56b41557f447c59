/**
  * The contents of an NDJSON output file, and what a FileSink may do to it, over its whole
  * life: writes, faults, crashes at any byte and reopenings.
  */
module FileSpec {

  import opened Bytes

  const NEWLINE: byte := 10

  /** One past the last newline, or 0. */
  function LastLineEnd(c: Bytes): (end: nat)
    ensures end <= |c|
  {
    if c == [] then 0
    else if c[|c| - 1] == NEWLINE then |c|
    else LastLineEnd(c[..|c| - 1])
  }

  /** Every line is complete. */
  predicate Complete(c: Bytes) {
    c == [] || c[|c| - 1] == NEWLINE
  }

  function Repaired(c: Bytes): (r: Bytes)
    ensures r <= c
  {
    c[..LastLineEnd(c)]
  }

  /** One line per event. */
  function Lines(batch: seq<Bytes>): Bytes {
    if batch == [] then [] else Lines(batch[..|batch| - 1]) + batch[|batch| - 1] + [NEWLINE]
  }

  lemma {:induction false} LastLineEndIs(c: Bytes)
    ensures forall i :: LastLineEnd(c) <= i < |c| ==> c[i] != NEWLINE
    ensures LastLineEnd(c) > 0 ==> c[LastLineEnd(c) - 1] == NEWLINE
  {
    if c != [] && c[|c| - 1] != NEWLINE {
      LastLineEndIs(c[..|c| - 1]);
    }
  }

  lemma RepairedIsComplete(c: Bytes)
    ensures Complete(Repaired(c))
    ensures Complete(c) ==> Repaired(c) == c
  {
    LastLineEndIs(c);
  }

  /** Repair never cuts below a prefix that already ends in a newline. */
  lemma RepairKeeps(p: Bytes, c: Bytes)
    requires p <= c && Complete(p)
    ensures p <= Repaired(c)
  {
    LastLineEndIs(c);
    if p != [] { assert c[|p| - 1] == NEWLINE; }
  }

  lemma LinesComplete(batch: seq<Bytes>)
    ensures Complete(Lines(batch))
  {}

  lemma CompleteJoin(a: Bytes, b: Bytes)
    requires Complete(a) && Complete(b)
    ensures Complete(a + b)
  {}

  // ---- a sink between two calls ----

  /** The file, and the sink's own flags. Between calls the stream buffer is empty. */
  datatype View = View(file: Bytes, open: bool, failed: bool, cancelled: bool)

  /** The file as it is once it is open and repaired. `created` tells that opening for update
      failed and the file was then created afresh. */
  function Base(v: View, created: bool): (base: Bytes)
    ensures !created ==> base <= v.file
  {
    if v.open then v.file else if created then [] else Repaired(v.file)
  }

  /** What a call of write may do. `trail` lists what the file held after each operation that
      touched it; an append goes through every prefix in between. */
  predicate WriteStep(v: View, batch: seq<Bytes>, created: bool, v': View, ok: bool, trail: seq<Bytes>) {
    var base := Base(v, created);
    && v'.cancelled == v.cancelled
    && (v.cancelled || v.failed ==> !ok && v' == v && trail == [])
    && (v.open ==> !created)
    && (ok ==> v'.open && !v'.failed && v'.file == base + Lines(batch))
    && (!ok && !v'.failed ==> if v'.open then v'.file == base else v' == v)
    && (v'.failed && !v.failed ==> !v'.open && base <= v'.file)
    && (forall c :: c in trail ==> base <= c)
    && (v'.open ==> Complete(v'.file))
  }

  // ---- a life ----

  datatype Act =
    | Write(batch: seq<Bytes>, created: bool, ok: bool, trail: seq<Bytes>)
    | Flush
    | Cancel
    // the process dies inside a write; the file keeps `rest`, and another process opens it
    | Die(batch: seq<Bytes>, created: bool, last: View, ok: bool, trail: seq<Bytes>, rest: Bytes)

  /** What the file can hold when the process dies at a moment of this write: one of its
      contents, or a prefix of an append in progress. */
  predicate DeathLeaves(contents: seq<Bytes>, rest: Bytes) {
    exists i :: 0 <= i < |contents| &&
      (rest == contents[i] || (i + 1 < |contents| && contents[i] <= rest <= contents[i + 1]))
  }

  predicate LifeStep(v: View, a: Act, v': View) {
    match a
    case Write(batch, created, ok, trail) => WriteStep(v, batch, created, v', ok, trail)
    case Flush => v' == v
    case Cancel => v' == v.(cancelled := true)
    case Die(batch, created, last, ok, trail, rest) =>
      && WriteStep(v, batch, created, last, ok, trail)
      && DeathLeaves([v.file] + trail, rest)
      && v' == View(rest, false, false, false)
  }

  predicate Life(vs: seq<View>, acts: seq<Act>) {
    && |vs| == |acts| + 1
    && (vs[0].open ==> Complete(vs[0].file))
    && forall k :: 0 <= k < |acts| ==> LifeStep(vs[k], acts[k], vs[k + 1])
  }

  predicate Creates(a: Act) {
    (a.Write? || a.Die?) && a.created
  }

  /** From act `from` up to act `to` the file is only created where there is none: a file that
      cannot be opened for update is not replaced by an empty one. */
  predicate NeverErases(vs: seq<View>, acts: seq<Act>, from: nat, to: nat)
    requires |vs| == |acts| + 1 && to <= |acts|
  {
    forall k :: from <= k < to && Creates(acts[k]) ==> vs[k].open || vs[k].file == []
  }

  lemma DeathKeeps(v: View, created: bool, trail: seq<Bytes>, rest: Bytes, p: Bytes)
    requires p <= v.file && p <= Base(v, created) && (forall c :: c in trail ==> Base(v, created) <= c)
    requires DeathLeaves([v.file] + trail, rest)
    ensures p <= rest
  {
    var contents := [v.file] + trail;
    forall c | c in contents ensures p <= c {
      if c in trail { PrefixTrans(p, Base(v, created), c); }
    }
    var i :| 0 <= i < |contents| &&
      (rest == contents[i] || (i + 1 < |contents| && contents[i] <= rest <= contents[i + 1]));
    assert contents[i] in contents;
    PrefixTrans(p, contents[i], rest);
  }

  lemma PrefixTrans(a: Bytes, b: Bytes, c: Bytes)
    requires a <= b && b <= c
    ensures a <= c
  {}

  /** A complete prefix of the file survives any act that does not erase the file. */
  lemma ActKeeps(v: View, a: Act, v': View, p: Bytes)
    requires LifeStep(v, a, v') && p <= v.file && Complete(p)
    requires Creates(a) ==> v.open || v.file == []
    ensures p <= v'.file
  {
    if a.Write? || a.Die? {
      RepairKeeps(p, v.file);
      var base := Base(v, a.created);
      assert p <= base;
      if a.Die? { DeathKeeps(v, a.created, a.trail, a.rest, p); }
    }
  }

  lemma {:induction false} PrefixSurvives(vs: seq<View>, acts: seq<Act>, i: nat, j: nat, p: Bytes)
    requires Life(vs, acts) && i <= j < |vs| && NeverErases(vs, acts, i, j)
    requires p <= vs[i].file && Complete(p)
    ensures p <= vs[j].file
  {
    if i < j {
      PrefixSurvives(vs, acts, i, j - 1, p);
      ActKeeps(vs[j - 1], acts[j - 1], vs[j], p);
    }
  }

  /** Once a write has returned Ok, the whole file as it is then stays the beginning of the
      file, through every later write, fault, death at any byte and reopening. */
  lemma AcknowledgedForever(vs: seq<View>, acts: seq<Act>, i: nat, j: nat)
    requires Life(vs, acts) && i < j < |vs| && NeverErases(vs, acts, i + 1, j)
    requires acts[i].Write? && acts[i].ok
    ensures vs[i + 1].file <= vs[j].file
    ensures vs[i + 1].file == Base(vs[i], acts[i].created) + Lines(acts[i].batch)
  {
    PrefixSurvives(vs, acts, i + 1, j, vs[i + 1].file);
  }

  /** A sink that has failed for good touches the file no more, as long as it lives. */
  lemma {:induction false} FailedForGood(vs: seq<View>, acts: seq<Act>, i: nat, j: nat)
    requires Life(vs, acts) && i <= j < |vs| && vs[i].failed
    requires forall k :: i <= k < j ==> !acts[k].Die?
    ensures vs[j].failed && vs[j].file == vs[i].file
    ensures forall k :: i <= k < j && acts[k].Write? ==> !acts[k].ok
  {
    if i < j {
      FailedForGood(vs, acts, i, j - 1);
      assert LifeStep(vs[j - 1], acts[j - 1], vs[j]);
    }
  }

  /** Exactly when opening keeps a complete prefix: the file was open already, or it was not
      created afresh, or there was nothing to keep. */
  lemma OpeningKeeps(v: View, created: bool, p: Bytes)
    requires p <= v.file && Complete(p)
    ensures p <= Base(v, created) <==> v.open || !created || p == []
  {
    RepairKeeps(p, v.file);
  }
}
