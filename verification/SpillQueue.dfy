// The state of a payload queue and what its operations do to it (queues.cc): a list in memory,
// followed by files in the order of their keys.
//
// The output stream buffers what is written to it, and nothing flushes it before a reader opens
// the same file, nor closes it when that file is removed.  Both are modelled: `pending` is what
// the stream has not yet passed on, and writing through a stream whose file has been removed
// changes no file in the directory.
module SpillQueue {
  import opened Basics
  import opened Records

  const MAX_RECORD := 65535
  const PREFIX_BYTES := 2  // the length in front of each record on disc

  datatype File = File(key: nat, bytes: Bytes)

  datatype Out = Closed | Open(key: nat, size: nat, pending: Bytes)

  datatype Queue = Queue(
    maxMem: nat,
    mem: seq<Bytes>,
    szMem: nat,
    files: seq<File>,     // queue_fns, with what the directory holds under each name
    out: Out,
    amount: nat,          // this queue's entry in the quota manager
    disappointed: bool)

  // ---------- what the queue holds ----------

  /** A file's bytes once everything written to it has been passed on. */
  function Complete(f: File, out: Out): Bytes {
    if out.Open? && out.key == f.key then f.bytes + out.pending else f.bytes
  }

  function Stored(files: seq<File>, out: Out): seq<Bytes> {
    if files == [] then [] else LoadAll(Complete(files[0], out)) + Stored(files[1..], out)
  }

  /** The records of the queue, oldest first. */
  function Contents(q: Queue): seq<Bytes> {
    q.mem + Stored(q.files, q.out)
  }

  function DiscUse(files: seq<File>, out: Out): nat {
    if files == [] then 0 else |Complete(files[0], out)| + DiscUse(files[1..], out)
  }

  predicate Ascending(files: seq<File>) {
    forall i, j :: 0 <= i < j < |files| ==> files[i].key < files[j].key
  }

  function Last(files: seq<File>): File
    requires files != []
  {
    files[|files| - 1]
  }

  /** The stream is open on a file that is still in the directory. */
  predicate Linked(q: Queue) {
    q.out.Open? && q.files != [] && Last(q.files).key == q.out.key
  }

  /** A file that fits in memory on its own. */
  predicate Small(bytes: Bytes, maxMem: nat) {
    TotalLength(LoadAll(bytes)) < maxMem
  }

  /** Only the newest file can be the one being written, and that holds whole records. */
  predicate StreamValid(maxMem: nat, files: seq<File>, out: Out) {
    out.Open? ==>
      && out.size < maxMem
      && (forall i :: 0 <= i < |files| - 1 ==> files[i].key != out.key)
      && (files != [] && Last(files).key == out.key ==>
            Whole(Complete(Last(files), out)) && |Complete(Last(files), out)| == out.size)
  }

  predicate FilesValid(maxMem: nat, files: seq<File>, out: Out) {
    && Ascending(files)
    && (forall i :: 0 <= i < |files| ==> Small(Complete(files[i], out), maxMem))
    && StreamValid(maxMem, files, out)
  }

  predicate Valid(q: Queue) {
    && q.maxMem > PREFIX_BYTES + MAX_RECORD
    && q.szMem == TotalLength(q.mem) < q.maxMem
    && Storable(q.mem)
    && FilesValid(q.maxMem, q.files, q.out)
  }

  // ---------- operations ----------

  /** Bytes reach the file open under `key`, if it is still there. */
  function Written(files: seq<File>, key: nat, bytes: Bytes): seq<File> {
    if files == [] then []
    else if files[0].key == key then [File(key, files[0].bytes + bytes)] + files[1..]
    else [files[0]] + Written(files[1..], key, bytes)
  }

  /** The stream passes on the first `n` bytes that it still holds. */
  function Flush(q: Queue, n: nat): Queue
    requires q.out.Open?
  {
    var m := Min(n, |q.out.pending|);
    q.(files := Written(q.files, q.out.key, q.out.pending[..m]),
       out := q.out.(pending := q.out.pending[m..]))
  }

  function CloseOut(q: Queue): Queue {
    if q.out.Closed? then q else Flush(q, |q.out.pending|).(out := Closed)
  }

  /** Enters a file under its key, in place of any other under the same key. */
  function Insert(files: seq<File>, f: File): seq<File> {
    if files == [] || f.key < files[0].key then [f] + files
    else if f.key == files[0].key then [f] + files[1..]
    else [files[0]] + Insert(files[1..], f)
  }

  /** A new file, named for the present moment, takes over from the one being written. */
  function OpenNew(q: Queue, now: nat): Queue {
    var closed := CloseOut(q);
    closed.(files := Insert(closed.files, File(now, [])), out := Open(now, 0, []))
  }

  /** As a rule it is the last. */
  lemma {:induction false} InsertLast(files: seq<File>, f: File)
    requires Ahead(f.key, files)
    ensures Insert(files, f) == files + [f]
  {
    if files == [] {
    } else {
      InsertLast(files[1..], f);
    }
  }

  predicate FitsInMemory(q: Queue, rec: Bytes) {
    q.files == [] && q.szMem + |rec| < q.maxMem
  }

  predicate NeedsNewFile(q: Queue, rec: Bytes) {
    q.out.Closed? || q.out.size + PREFIX_BYTES + |rec| >= q.maxMem
  }

  function Append(q: Queue, rec: Bytes, flush: nat): Queue
    requires q.out.Open?
  {
    Flush(q.(out := q.out.(pending := q.out.pending + Save(rec),
                           size := q.out.size + |rec| + PREFIX_BYTES)), flush)
  }

  function Spill(q: Queue, rec: Bytes, now: nat, flush: nat): Queue {
    var ready := if NeedsNewFile(q, rec) then OpenNew(q, now) else q;
    var written := Append(ready, rec, flush);
    var done := if written.out.size >= written.maxMem then CloseOut(written) else written;
    done.(amount := done.amount + |rec| + PREFIX_BYTES)
  }

  /** `flush` is how many bytes the stream happens to pass on. */
  function Push(q: Queue, rec: Bytes, now: nat, flush: nat): Queue {
    if FitsInMemory(q, rec) then
      q.(mem := q.mem + [rec], szMem := q.szMem + |rec|,
         disappointed := q.disappointed && q.mem != [])
    else
      Spill(q, rec, now, flush)
  }

  /** The user is called back when it was let down before and there is something now. */
  predicate PushWakes(q: Queue, rec: Bytes) {
    FitsInMemory(q, rec) && q.mem == [] && q.disappointed
  }

  function LoadFile(q: Queue): Queue
    requires q.files != []
  {
    var ps := LoadAll(q.files[0].bytes);
    q.(mem := q.mem + ps, szMem := q.szMem + TotalLength(ps), files := q.files[1..],
       amount := Less(q.amount, StoredSize(ps)))
  }

  /** Files are loaded until one gives a record, or there are no more. */
  function LoadHead(q: Queue): Queue
    decreases |q.files|
  {
    if q.files == [] then q
    else
      var loaded := LoadFile(q);
      if loaded.mem == [] then LoadHead(loaded) else loaded
  }

  function Peek(q: Queue): Queue {
    var found := if q.mem == [] then LoadHead(q) else q;
    if found.mem == [] then found.(disappointed := true) else found
  }

  function Consume(q: Queue): Queue {
    if q.mem == [] then q
    else q.(mem := q.mem[1..], szMem := Less(q.szMem, |q.mem[0]|))
  }

  function Discard(q: Queue): Queue {
    if q.files == [] then q
    else q.(files := q.files[1..], amount := Less(q.amount, |q.files[0].bytes|))
  }

  // ---------- files and the stream ----------

  lemma {:induction false} StoredSplit(a: seq<File>, b: seq<File>, out: Out)
    ensures Stored(a + b, out) == Stored(a, out) + Stored(b, out)
    ensures DiscUse(a + b, out) == DiscUse(a, out) + DiscUse(b, out)
  {
    hide LoadAll, Complete;
    if a == [] {
      assert a + b == b;
    } else {
      assert (a + b)[1..] == a[1..] + b;
      StoredSplit(a[1..], b, out);
    }
  }

  /** The same files with the same complete contents, however much of them is still in a stream. */
  ghost predicate SameDisc(files: seq<File>, out: Out, files': seq<File>, out': Out) {
    |files| == |files'| && forall i :: 0 <= i < |files| ==> SameFile(files[i], out, files'[i], out')
  }

  predicate SameFile(f: File, out: Out, f': File, out': Out) {
    f.key == f'.key && Complete(f, out) == Complete(f', out')
  }

  lemma {:induction false} SameDiscSame(files: seq<File>, out: Out, files': seq<File>, out': Out)
    requires SameDisc(files, out, files', out')
    ensures Stored(files, out) == Stored(files', out')
    ensures DiscUse(files, out) == DiscUse(files', out')
  {
    hide LoadAll;
    if files == [] {
    } else {
      SameDiscSame(files[1..], out, files'[1..], out');
    }
  }

  lemma SameDiscValid(maxMem: nat, files: seq<File>, out: Out, files': seq<File>, out': Out)
    requires SameDisc(files, out, files', out') && FilesValid(maxMem, files, out)
    requires out'.Closed? || (out.Open? && out'.key == out.key && out'.size == out.size)
    ensures FilesValid(maxMem, files', out')
  {
    hide LoadAll, Whole, Complete, Small;
    assert forall i :: 0 <= i < |files| ==> SameFile(files[i], out, files'[i], out');
  }

  lemma {:induction false} WrittenToLast(files: seq<File>, key: nat, bytes: Bytes)
    requires forall i :: 0 <= i < |files| - 1 ==> files[i].key != key
    ensures var linked := files != [] && Last(files).key == key;
            Written(files, key, bytes)
            == if linked then files[..|files| - 1] + [File(key, Last(files).bytes + bytes)] else files
  {
    if |files| > 1 {
      WrittenToLast(files[1..], key, bytes);
    }
  }

  /** When the stream passes bytes on, nothing is gained or lost. */
  lemma FlushKeeps(q: Queue, n: nat)
    requires Valid(q) && q.out.Open?
    ensures var f := Flush(q, n);
            Valid(f) && SameDisc(q.files, q.out, f.files, f.out)
  {
    hide LoadAll, Whole, Small, FilesValid, Flush, Complete, TotalLength, Storable;
    FlushSame(q, n);
    FlushFrame(q, n);
    SameDiscValid(q.maxMem, q.files, q.out, Flush(q, n).files, Flush(q, n).out);
  }

  lemma FlushFrame(q: Queue, n: nat)
    requires q.out.Open?
    ensures var f := Flush(q, n);
            && f == q.(files := f.files, out := f.out) && f.out.Open?
            && f.out.key == q.out.key && f.out.size == q.out.size
  {
  }

  lemma FlushSame(q: Queue, n: nat)
    requires Valid(q) && q.out.Open?
    ensures SameDisc(q.files, q.out, Flush(q, n).files, Flush(q, n).out)
  {
    hide LoadAll, Whole, Small, Written, TotalLength, Storable;
    var m := Min(n, |q.out.pending|);
    var f := Flush(q, n);
    WrittenToLast(q.files, q.out.key, q.out.pending[..m]);
    forall i | 0 <= i < |q.files|
      ensures SameFile(q.files[i], q.out, f.files[i], f.out)
    {
      if q.files[i].key == q.out.key {
        assert i == |q.files| - 1;
        PassedOn(q.files[i].bytes, q.out.pending, m);
      } else {
        assert f.files[i] == q.files[i];
      }
    }
  }

  lemma PassedOn(written: Bytes, pending: Bytes, m: nat)
    requires m <= |pending|
    ensures (written + pending[..m]) + pending[m..] == written + pending
  {
  }

  lemma CloseKeeps(q: Queue)
    requires Valid(q)
    ensures var c := CloseOut(q);
            Valid(c) && SameDisc(q.files, q.out, c.files, c.out)
  {
    hide LoadAll, Whole, Small, Flush, FilesValid;
    if q.out.Open? {
      var f := Flush(q, |q.out.pending|);
      FlushKeeps(q, |q.out.pending|);
      FlushAll(q);
      forall i | 0 <= i < |f.files|
        ensures SameFile(q.files[i], q.out, f.files[i], Closed)
      {
        assert SameFile(q.files[i], q.out, f.files[i], f.out);
        assert f.files[i].bytes + [] == f.files[i].bytes;
      }
      SameDiscValid(q.maxMem, q.files, q.out, f.files, Closed);
    } else {
      forall i | 0 <= i < |q.files| ensures SameFile(q.files[i], q.out, q.files[i], q.out) { }
    }
  }

  lemma FlushAll(q: Queue)
    requires q.out.Open?
    ensures Flush(q, |q.out.pending|).out == q.out.(pending := [])
    ensures Flush(q, |q.out.pending|).(files := q.files, out := q.out) == q
  {
  }

  /** The clock is ahead of every key in use. */
  predicate Ahead(now: nat, files: seq<File>) {
    forall i :: 0 <= i < |files| ==> files[i].key < now
  }

  lemma SameKeys(files: seq<File>, out: Out, files': seq<File>, out': Out)
    requires SameDisc(files, out, files', out')
    ensures forall i :: 0 <= i < |files| ==> files'[i].key == files[i].key
  {
    hide Complete;
    forall i | 0 <= i < |files| ensures files'[i].key == files[i].key {
      assert SameFile(files[i], out, files'[i], out');
    }
  }

  lemma OpenNewKeeps(q: Queue, now: nat)
    requires Valid(q) && Ahead(now, q.files)
    ensures var o := OpenNew(q, now);
            Valid(o) && Linked(o) && o.out == Open(now, 0, [])
            && Stored(o.files, o.out) == Stored(q.files, q.out)
            && DiscUse(o.files, o.out) == DiscUse(q.files, q.out)
            && OnlyLastGrows(q.files, q.out, o.files, o.out)
  {
    hide LoadAll, Whole, Stored, DiscUse;
    CloseKeeps(q);
    var c, o := CloseOut(q), OpenNew(q, now);
    assert Ahead(now, c.files) by { SameKeys(q.files, q.out, c.files, c.out); }
    InsertLast(c.files, File(now, []));
    SameDiscSame(q.files, q.out, c.files, c.out);
    AddEmpty(q.maxMem, c.files, now);
    SameThenGrow(q.files, q.out, c.files, c.out, o.files, o.out);
    assert CloseOut(q).(files := q.files, out := q.out) == q by {
      if q.out.Open? { FlushAll(q); }
    }
  }

  lemma EmptyFile(maxMem: nat)
    requires maxMem > 0
    ensures LoadAll([]) == [] && Whole([]) && Small([], maxMem)
  {
    LoadNothing();
  }

  lemma AddEmpty(maxMem: nat, files: seq<File>, now: nat)
    requires FilesValid(maxMem, files, Closed) && Ahead(now, files) && maxMem > 0
    ensures var added, out := files + [File(now, [])], Open(now, 0, []);
            FilesValid(maxMem, added, out) && OnlyLastGrows(files, Closed, added, out)
            && Stored(added, out) == Stored(files, Closed) && DiscUse(added, out) == DiscUse(files, Closed)
  {
    hide LoadAll, Whole, Small, Stored, DiscUse;
    var added, out := files + [File(now, [])], Open(now, 0, []);
    forall i | 0 <= i < |files| ensures SameFile(files[i], Closed, files[i], out) {
    }
    SameDiscSame(files, Closed, files, out);
    StoredSplit(files, [File(now, [])], out);
    OneFile(File(now, []), out);
    EmptyFile(maxMem);
    forall i | 0 <= i < |added| ensures Small(Complete(added[i], out), maxMem) {
      if i < |files| { assert SameFile(files[i], Closed, added[i], out); }
    }
  }

  /** Every file is as it was, except that the newest one may be new or longer, if it is being written. */
  ghost predicate OnlyLastGrows(files: seq<File>, out: Out, files': seq<File>, out': Out) {
    forall i :: 0 <= i < |files'| ==>
      || (i < |files| && SameFile(files[i], out, files'[i], out'))
      || (i == |files'| - 1 && out'.Open? && files'[i].key == out'.key)
  }

  /** The record ends up last on disc if the stream's file is still there, and nowhere if not. */
  lemma AppendEffect(q: Queue, rec: Bytes, flush: nat)
    requires Valid(q) && q.out.Open? && |rec| <= MAX_RECORD
    requires q.out.size + PREFIX_BYTES + |rec| < q.maxMem
    ensures var a := Append(q, rec, flush);
            Valid(a) && OnlyLastGrows(q.files, q.out, a.files, a.out) && |a.files| == |q.files|
            && Stored(a.files, a.out) == Stored(q.files, q.out) + (if Linked(q) then [rec] else [])
            && DiscUse(a.files, a.out) == DiscUse(q.files, q.out) + if Linked(q) then |rec| + PREFIX_BYTES else 0
  {
    hide LoadAll, Whole, FilesValid, Save, Stored, DiscUse;
    var w := q.(out := q.out.(pending := q.out.pending + Save(rec), size := q.out.size + |rec| + PREFIX_BYTES));
    AppendPending(q.maxMem, q.files, q.out, w.out, rec);
    FlushKeeps(w, flush);
    SameDiscSame(w.files, w.out, Flush(w, flush).files, Flush(w, flush).out);
    GrowThenSame(q.files, q.out, w.files, w.out, Flush(w, flush).files, Flush(w, flush).out);
  }

  lemma GrowThenSame(a: seq<File>, aOut: Out, b: seq<File>, bOut: Out, c: seq<File>, cOut: Out)
    requires OnlyLastGrows(a, aOut, b, bOut) && SameDisc(b, bOut, c, cOut)
    requires bOut.Open? && cOut.Open? && bOut.key == cOut.key
    ensures OnlyLastGrows(a, aOut, c, cOut)
  {
    hide Complete;
    forall i | 0 <= i < |c|
      ensures (i < |a| && SameFile(a[i], aOut, c[i], cOut)) || (i == |c| - 1 && c[i].key == cOut.key)
    {
      assert SameFile(b[i], bOut, c[i], cOut);
    }
  }

  lemma SameThenGrow(a: seq<File>, aOut: Out, b: seq<File>, bOut: Out, c: seq<File>, cOut: Out)
    requires |a| == |b| && SameDisc(a, aOut, b, bOut) && OnlyLastGrows(b, bOut, c, cOut)
    ensures OnlyLastGrows(a, aOut, c, cOut)
  {
    hide Complete;
    forall i | 0 <= i < |c|
      ensures (i < |a| && SameFile(a[i], aOut, c[i], cOut)) || (i == |c| - 1 && cOut.Open? && c[i].key == cOut.key)
    {
      assert c[i] in c;
      assert (i < |b| && SameFile(b[i], bOut, c[i], cOut)) || (i == |c| - 1 && cOut.Open? && c[i].key == cOut.key);
      if i < |b| && SameFile(b[i], bOut, c[i], cOut) {
        assert SameFile(a[i], aOut, b[i], bOut);
      }
    }
  }

  lemma AppendPending(maxMem: nat, files: seq<File>, out: Out, out': Out, rec: Bytes)
    requires FilesValid(maxMem, files, out) && out.Open? && |rec| <= MAX_RECORD
    requires out.size + PREFIX_BYTES + |rec| < maxMem
    requires out' == out.(pending := out.pending + Save(rec), size := out.size + |rec| + PREFIX_BYTES)
    ensures FilesValid(maxMem, files, out') && OnlyLastGrows(files, out, files, out')
    ensures var linked := files != [] && Last(files).key == out.key;
            Stored(files, out') == Stored(files, out) + (if linked then [rec] else [])
            && DiscUse(files, out') == DiscUse(files, out) + if linked then |rec| + PREFIX_BYTES else 0
  {
    hide LoadAll, Whole, Save, Small, Stored, DiscUse, Complete;
    if files != [] && Last(files).key == out.key {
      var n := |files| - 1;
      var before, last := files[..n], files[n];
      assert files == before + [last];
      forall i | 0 <= i < n ensures SameFile(files[i], out, files[i], out') {
        CompleteElsewhere(files[i], out, out');
      }
      SameDiscSame(before, out, before, out');
      StoredSplit(before, [last], out);
      StoredSplit(before, [last], out');
      AppendToFile(last, out, out', rec);
      AppendValid(maxMem, files, out, out');
    } else {
      forall i | 0 <= i < |files| ensures SameFile(files[i], out, files[i], out') {
        CompleteElsewhere(files[i], out, out');
      }
      SameDiscSame(files, out, files, out');
      assert forall i :: 0 <= i < |files| ==> SameFile(files[i], out, files[i], out');
    }
  }

  lemma CompleteElsewhere(f: File, out: Out, out': Out)
    requires out.Open? && out'.Open? && out'.key == out.key && f.key != out.key
    ensures SameFile(f, out, f, out')
  {
  }

  /** The last file has grown, and is still short enough. */
  lemma AppendValid(maxMem: nat, files: seq<File>, out: Out, out': Out)
    requires FilesValid(maxMem, files, out) && out.Open? && out'.Open? && out'.key == out.key && out'.size < maxMem
    requires files != [] && Last(files).key == out.key
    requires Whole(Complete(Last(files), out')) && |Complete(Last(files), out')| == out'.size
    ensures FilesValid(maxMem, files, out') && OnlyLastGrows(files, out, files, out')
  {
    hide Whole, Small, Complete;
    SmallIfShort(Complete(Last(files), out'), maxMem);
    forall i | 0 <= i < |files| ensures Small(Complete(files[i], out'), maxMem)
    {
      if i < |files| - 1 { CompleteElsewhere(files[i], out, out'); }
    }
    forall i | 0 <= i < |files| - 1 ensures SameFile(files[i], out, files[i], out') {
      CompleteElsewhere(files[i], out, out');
    }
  }

  lemma AppendToFile(f: File, out: Out, out': Out, rec: Bytes)
    requires out.Open? && f.key == out.key && Whole(Complete(f, out)) && |rec| <= MAX_RECORD
    requires out' == out.(pending := out.pending + Save(rec), size := out.size + |rec| + PREFIX_BYTES)
    ensures Whole(Complete(f, out')) && |Complete(f, out')| == |Complete(f, out)| + |rec| + PREFIX_BYTES
    ensures Stored([f], out') == Stored([f], out) + [rec]
    ensures DiscUse([f], out') == DiscUse([f], out) + |rec| + PREFIX_BYTES
  {
    hide LoadAll, Whole, Save, Stored, DiscUse;
    assert Complete(f, out') == Complete(f, out) + Save(rec);
    WholeMore(Complete(f, out), rec);
    SaveSize(rec);
    OneFile(f, out);
    OneFile(f, out');
  }

  lemma SmallIfShort(bytes: Bytes, maxMem: nat)
    requires |bytes| < maxMem
    ensures Small(bytes, maxMem)
  {
    LoadedShape(bytes);
  }

  lemma OneFile(f: File, out: Out)
    ensures Stored([f], out) == LoadAll(Complete(f, out))
    ensures DiscUse([f], out) == |Complete(f, out)|
  {
  }

  lemma WholeMore(was: Bytes, rec: Bytes)
    requires Whole(was) && |rec| <= MAX_RECORD
    ensures Whole(was + Save(rec)) && LoadAll(was + Save(rec)) == LoadAll(was) + [rec]
  {
    hide LoadAll, Save;
    LoadAppend(was, Save(rec));
    LoadSaveAll([rec]);
    assert SaveAll([rec]) == Save(rec) + SaveAll([]) == Save(rec);
    SaveSplit(LoadAll(was), [rec]);
  }

  lemma {:induction false} SaveSplit(a: seq<Bytes>, b: seq<Bytes>)
    ensures SaveAll(a + b) == SaveAll(a) + SaveAll(b)
  {
    hide Save;
    if a == [] {
      assert a + b == b;
    } else {
      assert (a + b)[1..] == a[1..] + b;
      SaveSplit(a[1..], b);
    }
  }
}
