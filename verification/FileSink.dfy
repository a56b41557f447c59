/**
  * FileSink over a stdio stream: every call may fail where the environment says so, and the
  * stream may pass buffered bytes on to the file at any time.
  */
module FileSink {
  import opened Bytes
  import opened FileSpec
  import Events

  /**
    * A file and the stream that is open on it. Assumed of the platform: fflush leaves the
    * buffer empty whether or not it succeeds, ftruncate cuts exactly or not at all, and bytes
    * reach the file in order.
    */
  class Stream {
    var bytes: Bytes            // what the operating system holds
    var buffer: Bytes           // written, not yet passed on
    var atEnd: bool             // positioned at the end of the file
    ghost var trail: seq<Bytes> // history: `bytes` after each operation that may change it

    constructor (content: Bytes)
      ensures bytes == content && buffer == [] && !atEnd && trail == []
    {
      bytes, buffer, atEnd, trail := content, [], false, [];
    }

    /** fopen with mode w+b. */
    method Create()
      modifies this
      ensures bytes == [] && buffer == [] && !atEnd && trail == old(trail) + [bytes]
    {
      bytes, buffer, atEnd := [], [], false;
      trail := trail + [bytes];
    }

    method SeekEnd(works: bool) returns (ok: bool)
      modifies this`atEnd
      ensures ok == works && atEnd == works
    {
      ok, atEnd := works, works;
    }

    /** fseek and fread of a block. */
    method Read(start: nat, len: nat, works: bool) returns (ok: bool, block: Bytes)
      requires start + len <= |bytes|
      modifies this`atEnd
      ensures ok == works && (ok ==> block == bytes[start..start + len])
    {
      atEnd := false;
      ok, block := works, if works then bytes[start..start + len] else [];
    }

    /** fwrite: takes `accepted` bytes, and passes some of the buffer on. */
    method Put(data: Bytes, accepted: nat, spilled: nat) returns (ok: bool)
      requires atEnd
      modifies this`bytes, this`buffer, this`trail
      ensures ok == (accepted >= |data|)
      ensures bytes + buffer == old(bytes + buffer) + data[..Events.Min(accepted, |data|)]
      ensures old(bytes) <= bytes && trail == old(trail) + [bytes]
    {
      ok := accepted >= |data|;
      buffer := buffer + data[..Events.Min(accepted, |data|)];
      var n := Events.Min(spilled, |buffer|);
      bytes, buffer := bytes + buffer[..n], buffer[n..];
      trail := trail + [bytes];
    }

    /** fflush: on failure only `kept` bytes of the buffer reach the file. */
    method FlushBuffer(works: bool, kept: nat) returns (ok: bool)
      modifies this`bytes, this`buffer, this`trail
      ensures ok == works && buffer == [] && old(bytes) <= bytes <= old(bytes + buffer)
      ensures ok ==> bytes == old(bytes + buffer)
      ensures trail == old(trail) + [bytes]
    {
      ok := works;
      var n := if works then |buffer| else Events.Min(kept, |buffer|);
      bytes, buffer := bytes + buffer[..n], [];
      trail := trail + [bytes];
    }

    /** ftruncate; the position is then no longer the end. */
    method Truncate(length: nat, works: bool) returns (ok: bool)
      requires length <= |bytes|
      modifies this`bytes, this`atEnd, this`trail
      ensures ok == works && bytes == (if ok then old(bytes)[..length] else old(bytes))
      ensures trail == old(trail) + [bytes]
    {
      ok := works;
      if works {
        bytes, atEnd := bytes[..length], false;
      }
      trail := trail + [bytes];
    }
  }

  /** How many blocks, from the end, the scan reads until it meets a newline. */
  function BlocksRead(c: Bytes, block: nat): nat
    requires block >= 1
  {
    if c == [] then 0
    else
      var start := |c| - Events.Min(block, |c|);
      if LastLineEnd(c) > start then 1 else 1 + BlocksRead(c[..start], block)
  }

  /** One past the last newline of a block, or 0. */
  method LastNewline(buffer: Bytes) returns (i: nat)
    ensures i == LastLineEnd(buffer)
  {
    i := |buffer|;
    assert buffer[..i] == buffer;
    while i > 0 && buffer[i - 1] != NEWLINE
      invariant i <= |buffer| && LastLineEnd(buffer) == LastLineEnd(buffer[..i])
    {
      assert buffer[..i][..i - 1] == buffer[..i - 1];
      i := i - 1;
    }
  }

  lemma {:induction false} LastLineEndJoin(a: Bytes, b: Bytes)
    ensures LastLineEnd(a + b) == if LastLineEnd(b) > 0 then |a| + LastLineEnd(b) else LastLineEnd(a)
  {
    if b == [] {
      assert a + b == a;
    } else if b[|b| - 1] != NEWLINE {
      assert (a + b)[..|a + b| - 1] == a + b[..|b| - 1];
      LastLineEndJoin(a, b[..|b| - 1]);
    }
  }

  lemma BlockScanned(c: Bytes, pos: nat, block: nat)
    requires 1 <= block && 1 <= pos <= |c|
    ensures var start := pos - Events.Min(block, pos);
            if LastLineEnd(c[start..pos]) > 0 then
              LastLineEnd(c[..pos]) == start + LastLineEnd(c[start..pos]) && BlocksRead(c[..pos], block) == 1
            else
              && LastLineEnd(c[..pos]) == LastLineEnd(c[..start])
              && BlocksRead(c[..pos], block) == 1 + BlocksRead(c[..start], block)
  {
    var start := pos - Events.Min(block, pos);
    assert c[..pos] == c[..start] + c[start..pos];
    assert c[..pos][..start] == c[..start];
    LastLineEndJoin(c[..start], c[start..pos]);
  }

  /** The backward block scan. The block size is 64 KiB in the program; `readable` is the
      number of blocks that can be read before a read fails. */
  method FindLastCompleteLineEnd(file: Stream, block: nat, readable: nat) returns (ok: bool, end: nat)
    requires block >= 1
    modifies file`atEnd
    ensures ok ==> end == LastLineEnd(file.bytes)
    ensures ok <==> BlocksRead(file.bytes, block) <= readable
  {
    var pos: nat, blocks: nat := |file.bytes|, 0;
    ghost var content := file.bytes;
    assert content[..pos] == content;
    while pos > 0
      invariant pos <= |content| && blocks <= readable && file.bytes == content
      invariant LastLineEnd(content) == LastLineEnd(content[..pos])
      invariant blocks + BlocksRead(content[..pos], block) == BlocksRead(content, block)
      decreases pos
    {
      var chunk := if pos < block then pos else block;
      var start := pos - chunk;
      BlockScanned(content, pos, block);
      var got, buffer := file.Read(start, chunk, blocks < readable);
      if !got { return false, 0; }
      var i := LastNewline(buffer);
      if i > 0 { return true, start + i; }
      pos, blocks := start, blocks + 1;
    }
    ok, end := true, 0;
  }

  // ---- what may go wrong during a call, site by site ----

  datatype Hook = NoHook | TornHook | WriteHook

  /** Writing one line: an injected fault, or how much of the text and the newline is taken. */
  datatype LineFault = LineFault(hook: Hook, accepted: nat, newlineFails: bool, spilled: nat)

  datatype OpenFaults = OpenFaults(
    hook: bool, updateFails: bool, createFails: bool, sizeFails: bool, block: nat, readable: nat,
    seekFails: bool, truncateFails: bool, syncFails: bool)

  datatype UndoFaults = UndoFaults(kept: nat, truncateFails: bool, syncFails: bool, seekFails: bool)

  datatype WriteFaults = WriteFaults(
    opening: OpenFaults, startFails: bool, lines: seq<LineFault>,
    flushHook: bool, flushFails: bool, flushKept: nat, syncFails: bool, undo: UndoFaults)

  /** The repair of a file with these bytes meets no fault on its way. */
  predicate RepairsFine(f: OpenFaults, bytes: Bytes)
    requires f.block >= 1
  {
    && !f.sizeFails
    && (bytes == []
        || (&& BlocksRead(bytes, f.block) <= f.readable && !f.seekFails
            && (Complete(bytes) || (!f.truncateFails && !f.syncFails))))
  }

  /** A file that cannot be opened for update is created, and is then empty. */
  predicate OpensFine(f: OpenFaults, bytes: Bytes)
    requires f.block >= 1
  {
    && !f.hook && !(f.updateFails && f.createFails)
    && RepairsFine(f, if f.updateFails then [] else bytes)
  }

  predicate LineFine(f: LineFault, json: Bytes) {
    f.hook.NoHook? && (json == [] || f.accepted >= |json|) && !f.newlineFails
  }

  predicate LinesFine(faults: seq<LineFault>, batch: seq<Bytes>) {
    forall i :: 0 <= i < |faults| && i < |batch| ==> LineFine(faults[i], batch[i])
  }

  predicate AppendsFine(f: WriteFaults, batch: seq<Bytes>, durableSync: bool) {
    !f.startFails && LinesFine(f.lines, batch) && !f.flushHook && !f.flushFails && !(durableSync && f.syncFails)
  }

  /** `next` continues `before` with contents that all begin with `base`. */
  ghost predicate Continues(before: seq<Bytes>, next: seq<Bytes>, base: Bytes) {
    before <= next && forall i :: |before| <= i < |next| ==> base <= next[i]
  }

  class Sink {
    const file: Stream
    const durableSync: bool
    var open: bool
    var failed: bool
    var cancelled: bool

    constructor (file: Stream, durableSync: bool)
      requires file.buffer == []
      ensures this.file == file && this.durableSync == durableSync && !open && !failed && !cancelled && Valid()
    {
      this.file, this.durableSync := file, durableSync;
      open, failed, cancelled := false, false, false;
    }

    ghost predicate Valid()
      reads this, file
    {
      file.buffer == [] && (open ==> !failed && Complete(file.bytes))
    }

    ghost function State(): View
      reads this, file
    {
      View(file.bytes, open, failed, cancelled)
    }

    method RequestCancel()
      requires Valid()
      modifies this`cancelled
      ensures Valid() && LifeStep(old(State()), Cancel, State())
    {
      cancelled := true;
    }

    /** fail_hard, and the close_file it does first. */
    method FailHard()
      requires file.buffer == []
      modifies this`open, this`failed, file
      ensures !open && failed && file.buffer == [] && file.bytes == old(file.bytes)
      ensures Continues(old(file.trail), file.trail, file.bytes)
    {
      if open {
        var _ := file.FlushBuffer(true, 0);
      }
      open, failed := false, true;
    }

    method RollBack(good: nat, f: UndoFaults)
      requires open && !failed && good <= |file.bytes|
      modifies this`open, this`failed, file
      ensures file.buffer == []
      ensures failed ==> !open && old(file.bytes)[..good] <= file.bytes
      ensures !failed ==> open && file.bytes == old(file.bytes)[..good]
      ensures failed <==> f.truncateFails || f.syncFails || f.seekFails
      ensures Continues(old(file.trail), file.trail, old(file.bytes)[..good])
    {
      var _ := file.FlushBuffer(false, f.kept);
      var cut := file.Truncate(good, !f.truncateFails);
      if !cut || f.syncFails { FailHard(); return; }
      var sought := file.SeekEnd(!f.seekFails);
      if !sought { FailHard(); return; }
    }

    method RepairTail(f: OpenFaults)
      requires open && !failed && file.buffer == [] && f.block >= 1
      modifies this`open, this`failed, file
      ensures file.buffer == []
      ensures failed ==> !open && Repaired(old(file.bytes)) <= file.bytes
      ensures !failed ==> open && file.bytes == Repaired(old(file.bytes))
      ensures !failed <==> RepairsFine(f, old(file.bytes))
      ensures Continues(old(file.trail), file.trail, Repaired(old(file.bytes)))
    {
      RepairedIsComplete(file.bytes);
      LastLineEndIs(file.bytes);
      var sized := file.SeekEnd(!f.sizeFails);
      if !sized { FailHard(); return; }
      if |file.bytes| == 0 { return; }
      var found, end := FindLastCompleteLineEnd(file, f.block, f.readable);
      if !found { FailHard(); return; }
      if end == |file.bytes| {
        var sought := file.SeekEnd(!f.seekFails);
        if !sought { FailHard(); }
        return;
      }
      var _ := file.FlushBuffer(true, 0);
      var cut := file.Truncate(end, !f.truncateFails);
      if !cut || f.syncFails { FailHard(); return; }
      var sought := file.SeekEnd(!f.seekFails);
      if !sought { FailHard(); return; }
    }

    method EnsureOpen(f: OpenFaults) returns (ok: bool, created: bool)
      requires Valid() && f.block >= 1
      modifies this`open, this`failed, file
      ensures file.buffer == []
      ensures ok <==> !old(failed) && (old(open) || OpensFine(f, old(file.bytes)))
      ensures ok ==> open && !failed && file.bytes == Base(old(State()), created)
      ensures !ok && !failed ==> State() == old(State())
      ensures !ok && failed ==> State() == old(State()) || (!open && Base(old(State()), created) <= file.bytes)
      ensures old(failed || open) ==> State() == old(State()) && !created && file.trail == old(file.trail)
      ensures created <==> !old(failed || open) && !f.hook && f.updateFails && !f.createFails
      ensures Continues(old(file.trail), file.trail, Base(old(State()), created))
    {
      created := false;
      if failed { return false, false; }
      if open { return true, false; }
      if f.hook { return false, false; }
      if f.updateFails {
        if f.createFails { return false, false; }
        file.Create();
        created := true;
      }
      open := true;
      RepairTail(f);
      ok := !failed;
    }

    /** One line into the stream. */
    method PutLine(json: Bytes, f: LineFault) returns (ok: bool)
      requires file.atEnd
      modifies file`bytes, file`buffer, file`trail
      ensures ok <==> LineFine(f, json)
      ensures ok ==> file.bytes + file.buffer == old(file.bytes + file.buffer) + json + [NEWLINE]
      ensures old(file.bytes) <= file.bytes && Continues(old(file.trail), file.trail, old(file.bytes))
    {
      if f.hook.TornHook? {
        if json != [] { var _ := file.Put(json[..|json| / 2 + 1], |json|, f.spilled); }
        return false;
      }
      if f.hook.WriteHook? { return false; }
      if json != [] {
        var put := file.Put(json, f.accepted, f.spilled);
        if !put { return false; }
        assert json[..|json|] == json;
      }
      ok := file.Put([NEWLINE], if f.newlineFails then 0 else 1, f.spilled);
    }

    method PutLines(batch: seq<Bytes>, faults: seq<LineFault>) returns (ok: bool)
      requires file.atEnd && file.buffer == []
      modifies file`bytes, file`buffer, file`trail
      ensures ok <==> LinesFine(faults, batch)
      ensures ok ==> file.bytes + file.buffer == old(file.bytes) + Lines(batch)
      ensures old(file.bytes) <= file.bytes && Continues(old(file.trail), file.trail, old(file.bytes))
    {
      for i := 0 to |batch|
        invariant forall k :: 0 <= k < i && k < |faults| ==> LineFine(faults[k], batch[k])
        invariant file.bytes + file.buffer == old(file.bytes) + Lines(batch[..i])
        invariant old(file.bytes) <= file.bytes && Continues(old(file.trail), file.trail, old(file.bytes))
      {
        var f := if i < |faults| then faults[i] else LineFault(NoHook, |batch[i]|, false, 0);
        var put := PutLine(batch[i], f);
        if !put { return false; }
        assert batch[..i + 1][..i] == batch[..i];
        LinesNext(old(file.bytes), Lines(batch[..i]), batch[i]);
      }
      assert batch[..|batch|] == batch;
      ok := true;
    }

    /** The part of write that follows a successful opening. */
    method Append(batch: seq<Bytes>, f: WriteFaults) returns (ok: bool)
      requires open && !failed && file.buffer == []
      modifies this`open, this`failed, file
      ensures file.buffer == []
      ensures ok ==> open && !failed && file.bytes == old(file.bytes) + Lines(batch)
      ensures ok <==> AppendsFine(f, batch, durableSync)
      ensures !ok && !failed ==> open && file.bytes == old(file.bytes)
      ensures failed ==> !ok && !open && old(file.bytes) <= file.bytes
      ensures Continues(old(file.trail), file.trail, old(file.bytes))
    {
      var sought := file.SeekEnd(!f.startFails);
      if !sought { FailHard(); return false; }
      var start := |file.bytes|;
      ok := PutLines(batch, f.lines);
      if ok && !f.flushHook {
        var flushed := file.FlushBuffer(!f.flushFails, f.flushKept);
        if flushed && !(durableSync && f.syncFails) { return true; }
      }
      assert file.bytes[..start] == old(file.bytes);
      RollBack(start, f.undo);
      ok := false;
    }

    /** Hands the sink a batch. Whatever fails on the way, the file begins with what it was
        once open and repaired; a batch is appended whole or, unless the sink fails for good,
        not at all. */
    method Write(batch: seq<Bytes>, f: WriteFaults) returns (ok: bool, created: bool)
      requires Valid() && f.opening.block >= 1
      modifies this`open, this`failed, file
      ensures Valid()
      ensures ok <==> && !old(cancelled || failed)
                      && (old(open) || OpensFine(f.opening, old(file.bytes)))
                      && AppendsFine(f, batch, durableSync)
      ensures created <==> && !old(cancelled || failed || open)
                           && !f.opening.hook && f.opening.updateFails && !f.opening.createFails
      ensures old(file.trail) <= file.trail
      ensures WriteStep(old(State()), batch, created, State(), ok, file.trail[|old(file.trail)|..])
    {
      created := false;
      if cancelled { return false, false; }
      ok, created := EnsureOpen(f.opening);
      if !ok { return false, created; }
      RepairedIsComplete(old(file.bytes));
      LinesComplete(batch);
      CompleteJoin(file.bytes, Lines(batch));
      ok := Append(batch, f);
    }

    /** flush_now: between calls there is nothing buffered, so the file stays as it is. */
    method FlushNow(hook: bool, flushFails: bool, kept: nat, syncFails: bool) returns (ok: bool)
      requires Valid()
      modifies file
      ensures Valid() && LifeStep(old(State()), Flush, State())
      ensures ok <==> !failed && (open ==> !hook && !flushFails && !(durableSync && syncFails))
    {
      if failed { return false; }
      if !open { return true; }
      if hook { return false; }
      var flushed := file.FlushBuffer(!flushFails, kept);
      ok := flushed && !(durableSync && syncFails);
    }
  }

  /** The first write of a sink over a file that holds `content`: Ok means the batch follows what
      the repair left of it or, if the file could not be opened for update, stands alone. */
  method FirstWrite(content: Bytes, durableSync: bool, batch: seq<Bytes>, f: WriteFaults)
    returns (sink: Sink, ok: bool)
    requires f.opening.block >= 1
    ensures fresh(sink) && fresh(sink.file)
    ensures ok <==> OpensFine(f.opening, content) && AppendsFine(f, batch, durableSync)
    ensures ok ==> sink.file.bytes == (if f.opening.updateFails then [] else Repaired(content)) + Lines(batch)
  {
    var file := new Stream(content);
    sink := new Sink(file, durableSync);
    var created;
    ok, created := sink.Write(batch, f);
  }

  /** A file that cannot be opened for update, but can be created, loses the line it held
      through a write that returns Ok. */
  method CreatingErases() returns (sink: Sink, ok: bool, was: Bytes)
    ensures ok && was == [65, NEWLINE] && sink.file.bytes == [66, NEWLINE] && !(was <= sink.file.bytes)
  {
    was := [65, NEWLINE];
    var opening := OpenFaults(false, true, false, false, 65536, 0, false, false, false);
    var undo := UndoFaults(0, false, false, false);
    var batch: seq<Bytes> := [[66]];
    assert batch[..0] == [];
    assert Lines(batch) == [66, NEWLINE];
    sink, ok := FirstWrite(was, true, batch, WriteFaults(opening, false, [], false, false, 0, false, undo));
    assert sink.file.bytes[0] != was[0];
  }

  lemma LinesNext(before: Bytes, lines: Bytes, json: Bytes)
    ensures before + lines + json + [NEWLINE] == before + (lines + json + [NEWLINE])
  {}
}
