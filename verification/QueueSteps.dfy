// What one operation does to a payload queue, field by field (queues.cc): which way a record goes, when
// a file is opened and closed, and how far loading goes.
module QueueSteps {
  import opened Basics
  import opened Records
  import opened SpillQueue
  import opened QueueRuns

  /** A push adds its record to the memory, and leaves the disc alone, if and only if there are no files and the
      memory stays below its bound; the user is called back exactly when that ends a disappointment. */
  lemma PushExactly(q: Queue, rec: Bytes, now: nat, flush: nat)
    requires Valid(q)
    ensures var p := Push(q, rec, now, flush);
            && (p.files == q.files && p.out == q.out && p.mem == q.mem + [rec] <==>
                q.files == [] && TotalLength(q.mem) + |rec| < q.maxMem)
            && (q.files == [] && TotalLength(q.mem) + |rec| < q.maxMem ==>
                  && p.szMem == q.szMem + |rec| && p.amount == q.amount
                  && (p.disappointed <==> q.disappointed && q.mem != []))
            && (q.files != [] || TotalLength(q.mem) + |rec| >= q.maxMem ==>
                  && p.mem == q.mem && p.szMem == q.szMem && p.amount == q.amount + |rec| + 2
                  && (p.disappointed <==> q.disappointed))
            && p.maxMem == q.maxMem
    ensures PushWakes(q, rec) <==>
            q.files == [] && TotalLength(q.mem) + |rec| < q.maxMem && q.mem == [] && q.disappointed
  {
    hide Written, Save, LoadAll, Small, Whole;
    assert |q.mem + [rec]| != |q.mem|;
  }

  /** On the way to disc, a file is added, under the time of the push, if and only if the stream is closed or the
      record would bring it to the bound; the stream is closed again if the record does so all the same. */
  lemma SpillExactly(q: Queue, rec: Bytes, now: nat, flush: nat)
    requires Valid(q) && Ahead(now, q.files) && (q.files != [] || TotalLength(q.mem) + |rec| >= q.maxMem)
    ensures var p := Push(q, rec, now, flush);
            var opens := q.out.Closed? || q.out.size + 2 + |rec| >= q.maxMem;
            var size := (if opens then 0 else q.out.size) + 2 + |rec|;
            && |p.files| == |q.files| + (if opens then 1 else 0)
            && (forall i :: 0 <= i < |q.files| ==> p.files[i].key == q.files[i].key)
            && (opens ==> p.files[|q.files|].key == now)
            && (p.out.Closed? <==> size >= q.maxMem)
            && (p.out.Open? ==> p.out.size == size && p.out.key == if opens then now else q.out.key)
  {
    hide Save, LoadAll, Small, Whole, Written, Insert, Stored;
    var opens := q.out.Closed? || q.out.size + 2 + |rec| >= q.maxMem;
    var ready := if opens then OpenNew(q, now) else q;
    if opens { OpenKeys(q, now); }
    FlushKeys(ready.(out := ready.out.(pending := ready.out.pending + Save(rec), size := ready.out.size + |rec| + 2)),
              flush);
    var written := Append(ready, rec, flush);
    if written.out.size >= written.maxMem { FlushKeys(written, |written.out.pending|); }
  }

  lemma {:induction false} WrittenKeys(files: seq<File>, key: nat, bytes: Bytes)
    ensures var w := Written(files, key, bytes);
            |w| == |files| && forall i :: 0 <= i < |files| ==> w[i].key == files[i].key
  {
    if files == [] {
    } else {
      WrittenKeys(files[1..], key, bytes);
    }
  }

  lemma FlushKeys(q: Queue, n: nat)
    requires q.out.Open?
    ensures var f := Flush(q, n);
            && |f.files| == |q.files| && (forall i :: 0 <= i < |q.files| ==> f.files[i].key == q.files[i].key)
            && f.out.Open? && f.out.key == q.out.key && f.out.size == q.out.size && f.maxMem == q.maxMem
  {
    hide Written;
    WrittenKeys(q.files, q.out.key, q.out.pending[..Min(n, |q.out.pending|)]);
  }

  lemma OpenKeys(q: Queue, now: nat)
    requires Ahead(now, q.files)
    ensures var o := OpenNew(q, now);
            && |o.files| == |q.files| + 1 && o.files[|q.files|].key == now
            && (forall i :: 0 <= i < |q.files| ==> o.files[i].key == q.files[i].key)
            && o.out == Open(now, 0, []) && o.maxMem == q.maxMem
  {
    hide Insert, Flush;
    if q.out.Open? { FlushKeys(q, |q.out.pending|); }
    InsertLast(CloseOut(q).files, File(now, []));
  }

  /** Of what the stream holds, the file gets the first so many bytes, after what it had, and the stream keeps
      the rest; other files are as they were. */
  lemma FlushExactly(q: Queue, n: nat)
    requires Valid(q) && q.out.Open?
    ensures var f, m := Flush(q, n), if n < |q.out.pending| then n else |q.out.pending|;
            && f.out.Open? && f.out.pending == q.out.pending[m..] && |f.files| == |q.files|
            && forall i :: 0 <= i < |q.files| ==>
                 f.files[i].bytes == q.files[i].bytes + if q.files[i].key == q.out.key then q.out.pending[..m] else []
  {
    hide Written, LoadAll, Small, Whole, Complete;
    var m := Min(n, |q.out.pending|);
    WrittenToLast(q.files, q.out.key, q.out.pending[..m]);
    forall i | 0 <= i < |q.files|
      ensures var f := Flush(q, n);
              f.files[i].bytes == q.files[i].bytes + if q.files[i].key == q.out.key then q.out.pending[..m] else []
    {
      if q.files[i].key == q.out.key {
        assert i == |q.files| - 1;
      } else {
        assert q.files[i].bytes + [] == q.files[i].bytes;
      }
    }
  }

  /** So many files have been loaded: as many as it takes to find a record, or all of them. */
  ghost predicate Loads(q: Queue, h: Queue, k: nat) {
    && k <= |q.files| && h.files == q.files[k..]
    && (forall j :: 0 <= j < k - 1 ==> LoadAll(q.files[j].bytes) == [])
    && h.mem == (if k == 0 then [] else LoadAll(q.files[k - 1].bytes))
    && (k == 0 ==> q.files == []) && (h.mem == [] ==> k == |q.files|)
    && h.szMem == q.szMem + TotalLength(h.mem)
    && h.amount == (if q.amount < StoredSize(h.mem) then 0 else q.amount - StoredSize(h.mem))
    && h.maxMem == q.maxMem && h.out == q.out && h.disappointed == q.disappointed
  }

  /** Loading takes the oldest files in turn, up to the first that gives a record. */
  lemma {:induction false} LoadExactly(q: Queue)
    requires q.mem == []
    ensures exists k: nat :: Loads(q, LoadHead(q), k)
    decreases |q.files|
  {
    hide LoadAll, TotalLength, StoredSize;
    NothingLoaded();
    if q.files == [] {
      assert LoadHead(q) == q && Loads(q, q, 0);
    } else {
      var l := LoadFile(q);
      if l.mem == [] {
        LoadExactly(l);
        var k: nat :| Loads(l, LoadHead(l), k);
        LoadsNext(q, LoadHead(l), k);
        assert LoadHead(q) == LoadHead(l) && Loads(q, LoadHead(q), k + 1);
      } else {
        assert LoadHead(q) == l && Loads(q, l, 1);
      }
    }
  }

  lemma NothingLoaded()
    ensures TotalLength([]) == 0 && StoredSize([]) == 0
  {
  }

  lemma LoadsNext(q: Queue, h: Queue, k: nat)
    requires q.files != [] && q.mem == [] && LoadFile(q).mem == [] && Loads(LoadFile(q), h, k)
    ensures Loads(q, h, k + 1)
  {
    hide LoadAll, TotalLength, StoredSize;
    NothingLoaded();
    var l := LoadFile(q);
    assert l.files == q.files[1..];
    forall j | 0 <= j < k ensures LoadAll(q.files[j].bytes) == [] {
      if j > 0 { assert l.files[j - 1] == q.files[j]; }
    }
    if k > 0 { assert l.files[k - 1] == q.files[k]; }
  }

  /** Peeking loads only when there is nothing in memory, and is disappointed only when there is nothing at all;
      consuming takes the oldest record; discarding takes the oldest file, with its size on disc. */
  lemma TakeExactly(q: Queue)
    requires Valid(q)
    ensures q.mem != [] ==> Peek(q) == q
    ensures q.mem == [] ==>
              var h := LoadHead(q);
              Peek(q) == h.(disappointed := q.disappointed || h.mem == [])
    ensures q.mem != [] ==> Consume(q) == q.(mem := q.mem[1..], szMem := TotalLength(q.mem[1..]))
    ensures q.mem == [] ==> Consume(q) == q
    ensures q.files != [] ==>
              Discard(q) == q.(files := q.files[1..], amount := if q.amount < |q.files[0].bytes| then 0
                                                                else q.amount - |q.files[0].bytes|)
    ensures q.files == [] ==> Discard(q) == q
  {
    hide LoadAll, Small, Whole, Complete;
    if q.mem == [] {
      LoadHeadFrame(q);
    }
  }
}
