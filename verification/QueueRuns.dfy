// What a payload queue keeps and loses over any sequence of operations (queues.cc).
module QueueRuns {
  import opened Basics
  import opened Records
  import opened SpillQueue

  // ---------- one push ----------

  /** A pushed record is kept unless it is written through a stream whose file has already been
      loaded or discarded. */
  predicate PushKeeps(q: Queue, rec: Bytes) {
    FitsInMemory(q, rec) || NeedsNewFile(q, rec) || Linked(q)
  }

  lemma SpillEffect(q: Queue, rec: Bytes, now: nat, flush: nat)
    requires Valid(q) && |rec| <= MAX_RECORD && Ahead(now, q.files)
    ensures var s := Spill(q, rec, now, flush);
            var keeps := NeedsNewFile(q, rec) || Linked(q);
            Valid(s) && s.mem == q.mem
            && Stored(s.files, s.out) == Stored(q.files, q.out) + (if keeps then [rec] else [])
            && DiscUse(s.files, s.out) == DiscUse(q.files, q.out) + (if keeps then |rec| + PREFIX_BYTES else 0)
            && s.amount == q.amount + |rec| + PREFIX_BYTES
            && OnlyLastGrows(q.files, q.out, s.files, s.out)
  {
    hide Stored, DiscUse, Complete, Small, Whole, Save, OpenNew, CloseOut, Flush;
    if NeedsNewFile(q, rec) {
      OpenNewKeeps(q, now);
      var ready := OpenNew(q, now);
      OpenNewFrame(q, now);
      AppendEffect(ready, rec, flush);
      AppendFrame(ready, rec, flush);
      GrowTwice(q.files, q.out, ready.files, ready.out, Append(ready, rec, flush).files, Append(ready, rec, flush).out);
    } else {
      AppendEffect(q, rec, flush);
      AppendFrame(q, rec, flush);
    }
  }

  lemma OpenNewFrame(q: Queue, now: nat)
    ensures OpenNew(q, now).(files := q.files, out := q.out) == q
  {
  }

  lemma AppendFrame(q: Queue, rec: Bytes, flush: nat)
    requires q.out.Open?
    ensures var a := Append(q, rec, flush);
            a.out.Open? && a.out.key == q.out.key && a.out.size == q.out.size + |rec| + PREFIX_BYTES
            && a.(files := q.files, out := q.out) == q
  {
  }

  lemma GrowTwice(a: seq<File>, aOut: Out, b: seq<File>, bOut: Out, c: seq<File>, cOut: Out)
    requires OnlyLastGrows(a, aOut, b, bOut) && OnlyLastGrows(b, bOut, c, cOut)
    requires bOut.Open? && cOut.Open? && bOut.key == cOut.key && |b| == |c|
    ensures OnlyLastGrows(a, aOut, c, cOut)
  {
    hide Complete;
    forall i | 0 <= i < |c|
      ensures (i < |a| && SameFile(a[i], aOut, c[i], cOut)) || (i == |c| - 1 && c[i].key == cOut.key)
    {
      if i < |b| && SameFile(b[i], bOut, c[i], cOut) {
        assert b[i].key == c[i].key;
      }
    }
  }

  /** How far the quota charge is above what is on disc. */
  function Excess(q: Queue): int {
    q.amount - DiscUse(q.files, q.out)
  }

  /** A push adds the record at the end, and charges the quota for what it wrote, exactly when
      the record is kept; otherwise it changes nothing but the charge. */
  lemma PushEffect(q: Queue, rec: Bytes, now: nat, flush: nat)
    requires Valid(q) && |rec| <= MAX_RECORD && Ahead(now, q.files)
    ensures var p := Push(q, rec, now, flush);
            && Valid(p)
            && Contents(p) == Contents(q) + (if PushKeeps(q, rec) then [rec] else [])
            && (Contents(p) == Contents(q) + [rec] <==> PushKeeps(q, rec))
            && Excess(p) >= Excess(q) && (Excess(p) == Excess(q) <==> PushKeeps(q, rec))
            && OnlyLastGrows(q.files, q.out, p.files, p.out)
            && q.mem <= p.mem
  {
    hide LoadAll, Spill, Small, Whole, Complete;
    if FitsInMemory(q, rec) {
      StoredSizeSplit(q.mem, [rec]);
      assert TotalLength([rec]) == |rec|;
    } else {
      SpillEffect(q, rec, now, flush);
      var p := Spill(q, rec, now, flush);
      assert Contents(p) == Contents(q) + if PushKeeps(q, rec) then [rec] else [];
    }
  }

  // ---------- loading ----------

  /** Loading reaches the file being written while the stream still holds some of it. */
  predicate LoadLoses(files: seq<File>, out: Out)
  {
    files != [] &&
    if out.Open? && out.key == files[0].key then out.pending != []
    else LoadAll(files[0].bytes) == [] && LoadLoses(files[1..], out)
  }

  predicate PeekKeeps(q: Queue) {
    q.mem != [] || !LoadLoses(q.files, q.out)
  }

  predicate AllWhole(files: seq<File>, out: Out) {
    forall i :: 0 <= i < |files| ==> Whole(Complete(files[i], out))
  }

  lemma PrefixIsSubsequence<T>(a: seq<T>, b: seq<T>)
    requires a <= b
    ensures Subsequence(a, b)
  {
    SubsequencePrefix(a, [], b[|a|..]);
    assert a + [] == a && a + b[|a|..] == b;
  }

  lemma LoadFileEffect(q: Queue)
    requires Valid(q) && q.mem == [] && q.files != []
    ensures var l := LoadFile(q); var f := q.files[0];
            && Valid(l)
            && l.mem == LoadAll(f.bytes) <= LoadAll(Complete(f, q.out))
            && Contents(q) == LoadAll(Complete(f, q.out)) + Stored(l.files, l.out)
            && DiscUse(q.files, q.out) == |Complete(f, q.out)| + DiscUse(l.files, l.out)
            && (q.out.Open? && q.out.key == f.key ==> l.files == [])
            && (q.out.Open? && q.out.key == f.key ==>
                  (LoadAll(f.bytes) == LoadAll(Complete(f, q.out)) <==> q.out.pending == []))
  {
    hide LoadAll, Whole;
    var f := q.files[0];
    LoadedShape(f.bytes);
    assert LoadFile(q).mem == LoadAll(f.bytes);
    assert forall i :: 0 <= i < |q.files[1..]| ==> q.files[1..][i] == q.files[i + 1];
    if q.out.Open? && q.out.key == f.key {
      assert |q.files| == 1;
      var whole := Complete(f, q.out);
      assert whole[..|f.bytes|] == f.bytes;
      CutShort(whole, |f.bytes|);
    } else {
      assert Complete(f, q.out) == f.bytes && Small(Complete(f, q.out), q.maxMem);
    }
  }

  lemma {:induction false} LoadHeadEffect(q: Queue)
    requires Valid(q) && q.mem == []
    ensures Valid(LoadHead(q)) && (LoadHead(q).mem == [] ==> LoadHead(q).files == [])
    ensures Subsequence(Contents(LoadHead(q)), Contents(q))
    ensures Contents(LoadHead(q)) == Contents(q) <==> !LoadLoses(q.files, q.out)
    decreases |q.files|
  {
    hide LoadAll, Whole, Small, FilesValid, LoadFile;
    SubsequenceRefl(Contents(q));
    if q.files == [] {
    } else {
      var l, f := LoadFile(q), q.files[0];
      LoadFileEffect(q);
      LoadFileFrame(q);
      if q.out.Open? && q.out.key == f.key {
        assert Contents(q) == LoadAll(Complete(f, q.out));
        PrefixIsSubsequence(l.mem, Contents(q));
        if l.mem == [] {
          assert LoadHead(l) == l;
        }
        assert Contents(LoadHead(q)) == l.mem;
      } else {
        assert Complete(f, q.out) == f.bytes;
        assert Contents(q) == l.mem + Stored(l.files, l.out) == Contents(l);
        if l.mem == [] { LoadHeadEffect(l); }
      }
    }
  }

  lemma LoadFileFrame(q: Queue)
    requires q.files != []
    ensures LoadFile(q).files == q.files[1..] && LoadFile(q).out == q.out
    ensures LoadFile(q).mem == q.mem + LoadAll(q.files[0].bytes)
    ensures LoadFile(q).amount == Less(q.amount, StoredSize(LoadAll(q.files[0].bytes)))
  {
  }

  /** With whole files on disc, and a charge that covers them, loading takes as much off the charge
      as it takes off the disc, unless it loses what the stream still holds; then it takes less. */
  lemma {:induction false} LoadHeadCharge(q: Queue)
    requires Valid(q) && q.mem == [] && AllWhole(q.files, q.out)
    requires Excess(q) >= 0
    ensures var h := LoadHead(q);
            AllWhole(h.files, h.out)
            && Excess(h) >= Excess(q) && (Excess(h) == Excess(q) <==> !LoadLoses(q.files, q.out))
    decreases |q.files|
  {
    hide LoadAll, Small, FilesValid, LoadFile, Whole;
    if q.files == [] {
    } else {
      var l, f := LoadFile(q), q.files[0];
      LoadFileEffect(q);
      LoadFileFrame(q);
      assert Whole(Complete(f, q.out));
      LoadedShape(f.bytes);
      assert forall i :: 0 <= i < |l.files| ==> l.files[i] == q.files[i + 1];
      if q.out.Open? && q.out.key == f.key {
        if l.mem == [] {
          assert LoadHead(l) == l;
        }
        assert DiscUse(l.files, l.out) == 0;
        if q.out.pending == [] { assert Complete(f, q.out) == f.bytes; }
      } else if l.mem == [] {
        LoadHeadCharge(l);
      }
    }
  }

  /** Looking at the head changes the contents only when unwritten bytes are lost, and otherwise
      exposes the oldest record. */
  lemma PeekEffect(q: Queue)
    requires Valid(q)
    ensures var p := Peek(q);
            && Valid(p)
            && (p.mem == [] ==> p.files == [] && p.disappointed)
            && (p.mem == [] <==> Contents(p) == [])
            && (p.mem != [] ==> p.mem[0] == Contents(p)[0] && p.disappointed == q.disappointed)
            && Subsequence(Contents(p), Contents(q))
            && (Contents(p) == Contents(q) <==> PeekKeeps(q))
  {
    hide LoadAll, FilesValid, LoadLoses;
    SubsequenceRefl(Contents(q));
    if q.mem == [] {
      LoadHeadEffect(q);
      LoadHeadFrame(q);
    }
  }

  lemma {:induction false} LoadHeadFrame(q: Queue)
    ensures var h := LoadHead(q);
            h.disappointed == q.disappointed && h.maxMem == q.maxMem && h.out == q.out
    decreases |q.files|
  {
    hide LoadAll;
    if q.files != [] && LoadFile(q).mem == [] {
      LoadHeadFrame(LoadFile(q));
    }
  }

  // ---------- restart ----------

  const WORD := 0x1_0000_0000_0000_0000  // keys are unsigned, of sixty-four bits

  function ShutdownKey(q: Queue, now: nat): nat {
    if q.files == [] then now else q.files[0].key
  }

  /** There is a key before the first. */
  predicate Restartable(q: Queue, now: nat) {
    q.mem != [] ==> ShutdownKey(q, now) > 0
  }

  /** The key before the first; from zero it goes round to the last that there is. */
  function KeyBefore(key: nat): nat {
    if key == 0 then WORD - 1 else key - 1
  }

  /** The files that a destroyed queue leaves behind: the stream is emptied, and what was in
      memory is saved in a file under the key before the first. */
  function Shutdown(q: Queue, now: nat): seq<File> {
    var files := CloseOut(q).files;
    if q.mem == [] then files else Insert(files, File(KeyBefore(ShutdownKey(q, now)), SaveAll(q.mem)))
  }

  /** Unless the first key is zero, the saved file comes before all others. */
  lemma ShutdownFirst(q: Queue, now: nat)
    requires Restartable(q, now) && q.mem != []
    ensures Shutdown(q, now) == [File(ShutdownKey(q, now) - 1, SaveAll(q.mem))] + CloseOut(q).files
  {
    hide SaveAll;
  }

  function Startup(maxMem: nat, files: seq<File>): Queue {
    Queue(maxMem, [], 0, files, Closed, DiscUse(files, Closed), true)
  }

  /** A queue built on the files that another left holds the same records in the same order. */
  lemma RestartKeeps(q: Queue, now: nat)
    requires Valid(q) && Restartable(q, now)
    ensures var r := Startup(q.maxMem, Shutdown(q, now));
            Valid(r) && Contents(r) == Contents(q) && Excess(r) == 0 && r.maxMem == q.maxMem
  {
    hide LoadAll, Whole, Small, CloseOut, Complete, Insert;
    CloseKeeps(q);
    var c, files := CloseOut(q), Shutdown(q, now);
    SameDiscSame(q.files, q.out, c.files, c.out);
    assert c.out == Closed by { CloseCloses(q); }
    if q.mem != [] {
      var saved := File(ShutdownKey(q, now) - 1, SaveAll(q.mem));
      ShutdownFirst(q, now);
      StoredSplit([saved], c.files, Closed);
      OneFile(saved, Closed);
      SavedFile(saved, q.mem, q.maxMem);
      forall i | 0 <= i < |c.files| ensures c.files[i].key == q.files[i].key {
        assert SameFile(q.files[i], q.out, c.files[i], c.out);
      }
      forall i | 0 <= i < |files| ensures Small(Complete(files[i], Closed), q.maxMem) {
        if i > 0 { assert files[i] == c.files[i - 1]; }
      }
    }
  }

  /** Each file is the one that was saved, or holds what it held before. */
  lemma RestartFiles(q: Queue, now: nat)
    requires Valid(q) && Restartable(q, now)
    ensures var r := Startup(q.maxMem, Shutdown(q, now));
            && (AllWhole(q.files, q.out) ==> AllWhole(r.files, r.out))
            && Wholes(r) <= Wholes(q) + Saved(q, DoRestart(now))
  {
    hide LoadAll, Whole, Small, CloseOut, Complete, FilesValid, SaveAll, Insert;
    CloseKeeps(q);
    CloseCloses(q);
    var c, files := CloseOut(q), Shutdown(q, now);
    if q.mem != [] { ShutdownFirst(q, now); }
    var saved := File(if q.mem == [] then 0 else ShutdownKey(q, now) - 1, SaveAll(q.mem));
    LoadSaveAll(q.mem);
    CompleteClosed(saved);
    forall i | 0 <= i < |files|
      ensures var f := File(files[i].key, Complete(files[i], Closed));
              (q.mem != [] && f == saved) || (f in Wholes(q) && (AllWhole(q.files, q.out) ==> Whole(f.bytes)))
    {
      if q.mem == [] || i > 0 {
        var k := if q.mem == [] then i else i - 1;
        assert files[i] == c.files[k] && SameFile(q.files[k], q.out, c.files[k], c.out);
        assert File(q.files[k].key, Complete(q.files[k], q.out)) in Wholes(q);
      }
    }
  }

  lemma CompleteClosed(f: File)
    ensures Complete(f, Closed) == f.bytes
  {
  }

  lemma CloseCloses(q: Queue)
    ensures CloseOut(q).out == Closed
  {
  }

  lemma SavedFile(f: File, ps: seq<Bytes>, maxMem: nat)
    requires f.bytes == SaveAll(ps) && Storable(ps) && TotalLength(ps) < maxMem
    ensures LoadAll(Complete(f, Closed)) == ps && Small(Complete(f, Closed), maxMem)
  {
    hide LoadAll, SaveAll;
    LoadSaveAll(ps);
  }

  // ---------- runs ----------

  datatype Op =
    | DoPush(rec: Bytes, now: nat, flush: nat)
    | DoPeek
    | DoConsume
    | DoDiscard
    | DoRestart(now: nat)  // the queue is destroyed, and another is built on its files

  function Step(q: Queue, op: Op): Queue {
    match op
    case DoPush(rec, now, flush) => Push(q, rec, now, flush)
    case DoPeek => Peek(q)
    case DoConsume => Consume(q)
    case DoDiscard => Discard(q)
    case DoRestart(now) => if Restartable(q, now) then Startup(q.maxMem, Shutdown(q, now)) else q
  }

  /** What the operation asks of its caller and of the clock. */
  predicate Admissible(q: Queue, op: Op) {
    match op
    case DoPush(rec, now, _) => |rec| <= MAX_RECORD && Ahead(now, q.files)
    case DoRestart(now) => Restartable(q, now)
    case _ => true
  }

  /** No record is lost by this operation. */
  predicate Keeps(q: Queue, op: Op) {
    match op
    case DoPush(rec, _, _) => PushKeeps(q, rec)
    case DoPeek => PeekKeeps(q)
    case DoConsume => true
    case DoDiscard => q.files == [] || LoadAll(Complete(q.files[0], q.out)) == []
    case DoRestart(_) => true
  }

  function Given(op: Op): seq<Bytes> {
    if op.DoPush? then [op.rec] else []
  }

  function Taken(q: Queue, op: Op): seq<Bytes> {
    if op.DoConsume? && q.mem != [] then [q.mem[0]] else []
  }

  function Run(q: Queue, ops: seq<Op>): Queue
    decreases |ops|
  {
    if ops == [] then q else Run(Step(q, ops[0]), ops[1..])
  }

  predicate AdmissibleRun(q: Queue, ops: seq<Op>)
    decreases |ops|
  {
    ops == [] || (Admissible(q, ops[0]) && AdmissibleRun(Step(q, ops[0]), ops[1..]))
  }

  predicate KeepsRun(q: Queue, ops: seq<Op>)
    decreases |ops|
  {
    ops == [] || (Keeps(q, ops[0]) && KeepsRun(Step(q, ops[0]), ops[1..]))
  }

  function GivenRun(ops: seq<Op>): seq<Bytes> {
    if ops == [] then [] else Given(ops[0]) + GivenRun(ops[1..])
  }

  function TakenRun(q: Queue, ops: seq<Op>): seq<Bytes>
    decreases |ops|
  {
    if ops == [] then [] else Taken(q, ops[0]) + TakenRun(Step(q, ops[0]), ops[1..])
  }

  lemma DiscardEffect(q: Queue)
    requires Valid(q)
    ensures Valid(Discard(q)) && Subsequence(Contents(Discard(q)), Contents(q))
    ensures Contents(Discard(q)) == Contents(q) <==> Keeps(q, DoDiscard)
  {
    hide LoadAll, Whole, Small, Complete, Valid;
    if q.files == [] {
      SubsequenceRefl(Contents(q));
    } else {
      var lost, rest := LoadAll(Complete(q.files[0], q.out)), Stored(q.files[1..], q.out);
      assert Contents(q) == q.mem + (lost + rest);
      assert Contents(Discard(q)) == q.mem + rest;
      WithoutMiddle(q.mem, lost, rest);
    }
    DiscardValid(q);
  }

  lemma DiscardValid(q: Queue)
    requires Valid(q)
    ensures Valid(Discard(q))
  {
    hide LoadAll, Whole, Small, Complete, Storable, TotalLength;
    if q.files != [] {
      assert forall i :: 0 <= i < |q.files[1..]| ==> q.files[1..][i] == q.files[i + 1];
    }
  }

  lemma WithoutMiddle(front: seq<Bytes>, lost: seq<Bytes>, rest: seq<Bytes>)
    ensures Subsequence(front + rest, front + (lost + rest))
    ensures front + rest == front + (lost + rest) <==> lost == []
  {
    SubsequenceRefl(rest);
    SubsequencePrefix(lost, rest, rest);
    SubsequencePrefix(front, rest, lost + rest);
    assert |front + (lost + rest)| == |front| + |lost| + |rest|;
    assert lost == [] ==> lost + rest == rest;
  }

  lemma StepEffect(q: Queue, op: Op)
    requires Valid(q) && Admissible(q, op)
    ensures Valid(Step(q, op))
    ensures Subsequence(Taken(q, op) + Contents(Step(q, op)), Contents(q) + Given(op))
    ensures Taken(q, op) + Contents(Step(q, op)) == Contents(q) + Given(op) <==> Keeps(q, op)
  {
    hide LoadAll, Whole, FilesValid, Push, Peek, Discard, PushKeeps, PeekKeeps, Complete;
    var after := Contents(Step(q, op));
    match op
    case DoPush(rec, now, flush) =>
      PushEffect(q, rec, now, flush);
      assert Taken(q, op) + after == after;
      SubsequenceRefl(Contents(q));
      SubsequenceSuffix(Contents(q), Contents(q), [rec]);
      SubsequenceRefl(Contents(q) + [rec]);
      assert Contents(q) + [] == Contents(q);
    case DoPeek =>
      PeekEffect(q);
      assert Taken(q, op) + after == after && Contents(q) + [] == Contents(q);
    case DoConsume =>
      assert Taken(q, op) + after == Contents(q) == Contents(q) + [];
      SubsequenceRefl(Contents(q));
    case DoDiscard =>
      DiscardEffect(q);
      assert Taken(q, op) + after == after && Contents(q) + [] == Contents(q);
    case DoRestart(now) =>
      RestartKeeps(q, now);
      assert Taken(q, op) + after == after && Contents(q) + [] == Contents(q);
      SubsequenceRefl(Contents(q));
  }

  /** Over any run, what has been consumed, followed by what is still held, is what the queue
      started with, followed by what was pushed, in that order - less what was lost.  Nothing is
      lost exactly when no operation of the run loses anything. */
  lemma {:induction false} Conservation(q: Queue, ops: seq<Op>)
    requires Valid(q) && AdmissibleRun(q, ops)
    ensures Valid(Run(q, ops))
    ensures Subsequence(TakenRun(q, ops) + Contents(Run(q, ops)), Contents(q) + GivenRun(ops))
    ensures TakenRun(q, ops) + Contents(Run(q, ops)) == Contents(q) + GivenRun(ops) <==> KeepsRun(q, ops)
    decreases |ops|
  {
    hide LoadAll, Valid, Step, Keeps, Admissible, Taken, Given;
    if ops == [] {
      assert TakenRun(q, ops) + Contents(Run(q, ops)) == Contents(q) == Contents(q) + GivenRun(ops);
      SubsequenceRefl(Contents(q));
    } else {
      var next, later := Step(q, ops[0]), ops[1..];
      StepEffect(q, ops[0]);
      Conservation(next, later);
      var taken, given := Taken(q, ops[0]), Given(ops[0]);
      var whole := TakenRun(next, later) + Contents(Run(next, later));
      Chain(taken, whole, Contents(next), GivenRun(later), Contents(q) + given);
      assert TakenRun(q, ops) + Contents(Run(q, ops)) == taken + whole;
      assert Contents(q) + GivenRun(ops) == (Contents(q) + given) + GivenRun(later);
    }
  }

  lemma Chain(taken: seq<Bytes>, whole: seq<Bytes>, middle: seq<Bytes>, later: seq<Bytes>, start: seq<Bytes>)
    requires Subsequence(whole, middle + later) && Subsequence(taken + middle, start)
    ensures Subsequence(taken + whole, start + later)
    ensures taken + whole == start + later <==> whole == middle + later && taken + middle == start
  {
    hide Subsequence;
    SubsequencePrefix(taken, whole, middle + later);
    SubsequenceSuffix(taken + middle, start, later);
    SubsequenceTrans(taken + whole, taken + (middle + later), start + later) by {
      assert taken + (middle + later) == (taken + middle) + later;
    }
    SubsequenceSize(whole, middle + later);
    SubsequenceSize(taken + middle, start);
    assert |taken + whole| == |taken| + |whole| && |start + later| == |start| + |later|;
    assert |middle + later| == |middle| + |later| && |taken + middle| == |taken| + |middle|;
    if whole == middle + later && taken + middle == start {
      assert taken + (middle + later) == (taken + middle) + later;
    }
  }

  // ---------- the quota charge, and the sizes of files ----------

  /** The operations that leave the charge equal to what is on disc. */
  predicate ChargeKeeps(q: Queue, op: Op) {
    match op
    case DoPush(rec, _, _) => PushKeeps(q, rec)
    case DoPeek => PeekKeeps(q)
    case DoConsume => true
    case DoDiscard => q.files == [] || Complete(q.files[0], q.out) == q.files[0].bytes
    case DoRestart(_) => q.amount == DiscUse(q.files, q.out)
  }

  /** Every operation since the last restart, or since an exact start, is one of those. */
  predicate ExactRun(q: Queue, ops: seq<Op>, exact: bool)
    decreases |ops|
  {
    if ops == [] then exact
    else ExactRun(Step(q, ops[0]), ops[1..], ops[0].DoRestart? || (exact && ChargeKeeps(q, ops[0])))
  }

  lemma GrownWhole(maxMem: nat, files: seq<File>, out: Out, files': seq<File>, out': Out)
    requires AllWhole(files, out) && OnlyLastGrows(files, out, files', out')
    requires StreamValid(maxMem, files', out')
    ensures AllWhole(files', out')
  {
    hide Whole, Complete;
  }

  /** The charge never falls behind what is on disc.  A restart makes it exact, and any other
      operation leaves it as far above as it was if and only if it is one of those. */
  lemma StepCharge(q: Queue, op: Op)
    requires Valid(q) && Admissible(q, op)
    requires AllWhole(q.files, q.out) && Excess(q) >= 0
    ensures var s := Step(q, op);
            && AllWhole(s.files, s.out) && Excess(s) >= 0
            && (op.DoRestart? ==> Excess(s) == 0)
            && (!op.DoRestart? ==> Excess(s) >= Excess(q))
            && (Excess(s) == Excess(q) <==> ChargeKeeps(q, op))
  {
    hide LoadAll, Whole, Small, Push, PushKeeps, LoadHead, LoadLoses, Startup, Shutdown;
    match op
    case DoPush(rec, now, flush) =>
      PushEffect(q, rec, now, flush);
      PushFrame(q, rec, now, flush);
      GrownWhole(q.maxMem, q.files, q.out, Push(q, rec, now, flush).files, Push(q, rec, now, flush).out);
    case DoPeek =>
      if q.mem == [] { LoadHeadCharge(q); }
    case DoConsume =>
    case DoDiscard =>
      if q.files != [] {
        var d := Discard(q);
        assert forall i :: 0 <= i < |d.files| ==> d.files[i] == q.files[i + 1];
        assert DiscUse(q.files, q.out) == |Complete(q.files[0], q.out)| + DiscUse(d.files, d.out);
      }
    case DoRestart(now) =>
      RestartKeeps(q, now);
      RestartFiles(q, now);
  }

  /** Over every run, with any number of restarts, the charge is exact in the end if and only if it
      was so at the last restart, or before the run, and every operation since is one of those;
      otherwise it is too high. */
  lemma {:induction false} RunCharge(q: Queue, ops: seq<Op>)
    requires Valid(q) && AdmissibleRun(q, ops) && AllWhole(q.files, q.out) && Excess(q) >= 0
    ensures var r := Run(q, ops);
            AllWhole(r.files, r.out) && Excess(r) >= 0 && (Excess(r) == 0 <==> ExactRun(q, ops, Excess(q) == 0))
    decreases |ops|
  {
    hide Valid, Step, ChargeKeeps, Admissible, AllWhole, Excess;
    if ops == [] {
    } else {
      StepCharge(q, ops[0]);
      StepEffect(q, ops[0]);
      RunCharge(Step(q, ops[0]), ops[1..]);
    }
  }

  /** The files of the queue, with everything that has been written to them. */
  function Wholes(q: Queue): set<File> {
    set i | 0 <= i < |q.files| :: File(q.files[i].key, Complete(q.files[i], q.out))
  }

  /** What a restart saves of the memory. */
  function Saved(q: Queue, op: Op): set<File> {
    if op.DoRestart? && q.mem != [] && Restartable(q, op.now) then {File(ShutdownKey(q, op.now) - 1, SaveAll(q.mem))}
    else {}
  }

  function SavedRun(q: Queue, ops: seq<Op>): set<File>
    decreases |ops|
  {
    if ops == [] then {} else Saved(q, ops[0]) + SavedRun(Step(q, ops[0]), ops[1..])
  }

  predicate Short(f: File, maxMem: nat) {
    |f.bytes| < maxMem
  }

  /** Every file that pushing has written is below the memory bound, from whatever state the run
      began: a file that is not was there before, or was saved by a restart. */
  lemma {:induction false} RunShortFiles(q: Queue, ops: seq<Op>)
    requires Valid(q) && AdmissibleRun(q, ops)
    ensures var r := Run(q, ops);
            && r.maxMem == q.maxMem
            && forall f :: f in Wholes(r) ==> Short(f, q.maxMem) || f in Wholes(q) + SavedRun(q, ops)
    decreases |ops|
  {
    hide Valid, Step, Admissible, Wholes, Saved, Short;
    if ops == [] {
    } else {
      StepShortFiles(q, ops[0]);
      StepEffect(q, ops[0]);
      RunShortFiles(Step(q, ops[0]), ops[1..]);
    }
  }

  lemma StepShortFiles(q: Queue, op: Op)
    requires Valid(q) && Admissible(q, op)
    ensures var s := Step(q, op);
            s.maxMem == q.maxMem && forall f :: f in Wholes(s) ==> Short(f, q.maxMem) || f in Wholes(q) + Saved(q, op)
  {
    hide LoadAll, Whole, Small, Push, Complete, LoadHead, Startup, Shutdown;
    match op
    case DoPush(rec, now, flush) =>
      PushEffect(q, rec, now, flush);
      PushFrame(q, rec, now, flush);
      PushedShort(q, Push(q, rec, now, flush));
    case DoPeek =>
      if q.mem == [] { LoadHeadFiles(q); }
    case DoConsume =>
    case DoDiscard =>
    case DoRestart(now) =>
      RestartKeeps(q, now);
      RestartFiles(q, now);
  }

  lemma PushedShort(q: Queue, p: Queue)
    requires Valid(p) && OnlyLastGrows(q.files, q.out, p.files, p.out)
    ensures forall f :: f in Wholes(p) ==> Short(f, p.maxMem) || f in Wholes(q)
  {
    hide LoadAll, Whole, Small, Complete;
    forall i | 0 <= i < |p.files|
      ensures var f := File(p.files[i].key, Complete(p.files[i], p.out)); Short(f, p.maxMem) || f in Wholes(q)
    {
      if i < |q.files| && SameFile(q.files[i], q.out, p.files[i], p.out) {
        assert File(q.files[i].key, Complete(q.files[i], q.out)) in Wholes(q);
      }
    }
  }

  lemma PushFrame(q: Queue, rec: Bytes, now: nat, flush: nat)
    ensures Push(q, rec, now, flush).maxMem == q.maxMem
  {
    hide Written, Save;
  }

  lemma {:induction false} LoadHeadFiles(q: Queue)
    ensures Wholes(LoadHead(q)) <= Wholes(q) && LoadHead(q).maxMem == q.maxMem
    decreases |q.files|
  {
    hide LoadAll, Complete;
    if q.files == [] {
    } else {
      var l := LoadFile(q);
      forall i | 0 <= i < |l.files|
        ensures File(l.files[i].key, Complete(l.files[i], l.out)) in Wholes(q)
      {
        assert l.files[i] == q.files[i + 1];
      }
      if l.mem == [] { LoadHeadFiles(l); }
    }
  }

  // ---------- the loss, on a concrete run ----------

  lemma SpillFirst(q: Queue, rec: Bytes, now: nat)
    requires q.out == Closed && q.files == [] && PREFIX_BYTES + |rec| < q.maxMem
    ensures var s := Spill(q, rec, now, PREFIX_BYTES + |rec|);
            s == q.(files := [File(now, Save(rec))], out := Open(now, PREFIX_BYTES + |rec|, []),
                    amount := q.amount + |rec| + PREFIX_BYTES)
  {
    hide Save;
    SaveSize(rec);
    var o := OpenNew(q, now);
    assert o.files == [File(now, [])] && o.out.pending == [];
    var pending := o.out.pending + Save(rec);
    assert pending == Save(rec) && pending[..|pending|] == Save(rec) && pending[|pending|..] == [];
    assert Written([File(now, [])], now, Save(rec)) == [File(now, [] + Save(rec))];
    assert [] + Save(rec) == Save(rec);
  }

  /** With the memory bound of a channel's queue: once a spill file has been loaded while still
      being written, the next record to overflow memory goes into the removed file. */
  lemma StaleStreamLoses(a: Bytes, b: Bytes, c: Bytes, d: Bytes)
    requires |a| == |b| == 60000 && |c| == |d| == 30000
    ensures var start := Startup(102400, []);
            var ops := [DoPush(a, 1, 0), DoPush(b, 1, 60002), DoConsume, DoPeek, DoPush(c, 2, 0)];
            var q, last := Run(start, ops), DoPush(d, 2, 0);
            && KeepsRun(start, ops) && Contents(q) == [b, c]
            && Admissible(q, last) && !Keeps(q, last) && Contents(Step(q, last)) == [b, c]
  {
    hide LoadAll, Save, LoadHead, LoadFile, LoadLoses;
    var q0 := Startup(102400, []);
    var q1 := Step(q0, DoPush(a, 1, 0));
    var q2 := Step(q1, DoPush(b, 1, 60002));
    SaveSize(b);
    assert q1 == q0.(mem := [a], szMem := 60000, disappointed := false);
    assert q2.files == [File(1, Save(b))] && q2.out == Open(1, 60002, []) && q2.mem == [a] by {
      SpillFirst(q1, b, 1);
    }
    var q3 := Step(q2, DoConsume);
    var q4 := Step(q3, DoPeek);
    Reloads(q3, b);
    assert q4.mem == [b] && q4.files == [] && q4.out == Open(1, 60002, []) && q4.szMem == 60000;
    var q5 := Step(q4, DoPush(c, 2, 0));
    assert q5.mem == [b, c] && q5.files == [] && q5.out == q4.out && q5.szMem == 90000;
    FiveSteps(q0, DoPush(a, 1, 0), DoPush(b, 1, 60002), DoConsume, DoPeek, DoPush(c, 2, 0));
  }

  /** A file that is whole is loaded, though the stream is still open on it. */
  lemma Reloads(q: Queue, b: Bytes)
    requires |b| == 60000 && q.mem == [] && q.files == [File(1, Save(b))] && q.out == Open(1, 60002, [])
    ensures PeekKeeps(q)
    ensures Peek(q) == q.(mem := [b], szMem := q.szMem + 60000, files := [], amount := Less(q.amount, 60002))
  {
    hide LoadAll, Save;
    assert LoadAll(Save(b)) == [b] by {
      LoadNext(b, []);
      LoadNothing();
      assert Save(b) + [] == Save(b);
    }
    assert TotalLength([b]) == 60000;
    assert StoredSize([b]) == 60002;
  }

  lemma FiveSteps(q: Queue, a: Op, b: Op, c: Op, d: Op, e: Op)
    ensures var q1 := Step(q, a); var q2 := Step(q1, b); var q3 := Step(q2, c); var q4 := Step(q3, d);
            Run(q, [a, b, c, d, e]) == Step(q4, e)
            && (KeepsRun(q, [a, b, c, d, e])
                <==> Keeps(q, a) && Keeps(q1, b) && Keeps(q2, c) && Keeps(q3, d) && Keeps(q4, e))
  {
    hide Step, Keeps;
    var q1 := Step(q, a);
    var q2 := Step(q1, b);
    var q3 := Step(q2, c);
    RunCons(q, a, [b, c, d, e]);
    RunCons(q1, b, [c, d, e]);
    RunCons(q2, c, [d, e]);
    RunCons(q3, d, [e]);
    RunCons(Step(q3, d), e, []);
    assert [a] + [b, c, d, e] == [a, b, c, d, e];
  }

  lemma RunCons(q: Queue, op: Op, rest: seq<Op>)
    ensures Run(q, [op] + rest) == Run(Step(q, op), rest)
    ensures KeepsRun(q, [op] + rest) <==> Keeps(q, op) && KeepsRun(Step(q, op), rest)
  {
    assert ([op] + rest)[1..] == rest;
  }

  lemma SpillHeld(q: Queue, rec: Bytes, now: nat)
    requires q.out == Closed && q.files == [] && PREFIX_BYTES + |rec| < q.maxMem
    ensures Spill(q, rec, now, 0) == q.(files := [File(now, [])], out := Open(now, PREFIX_BYTES + |rec|, Save(rec)),
                                        amount := q.amount + |rec| + PREFIX_BYTES)
  {
    hide Save;
    var o := OpenNew(q, now);
    assert o.files == [File(now, [])] && o.out.pending == [];
    var pending := o.out.pending + Save(rec);
    assert pending == Save(rec) && pending[..0] == [] && pending[0..] == Save(rec);
    var none: Bytes := [];
    assert none + none == none;
    assert Written([File(now, none)], now, none) == [File(now, none + none)] == [File(now, none)];
  }

  lemma HeldBackRecord(b: Bytes, q: Queue)
    requires |b| <= MAX_RECORD && q.mem == [] && q.files == [File(1, [])]
    requires q.out.Open? && q.out.key == 1 && q.out.pending == Save(b)
    ensures Contents(q) == [b] && !PeekKeeps(q) && Contents(Peek(q)) == []
  {
    hide LoadAll, Save;
    LoadNothing();
    LoadNext(b, []);
    SaveSize(b);
    assert Complete(q.files[0], q.out) == [] + Save(b) == Save(b) + [];
    assert q.files[1..] == [];
    assert LoadAll(Save(b) + []) == [b];
    assert Stored(q.files, q.out) == LoadAll(Complete(q.files[0], q.out)) + Stored([], q.out) == [b] + [];
    var l := LoadFile(q);
    assert l.mem == [] + [] && l.files == [];
    assert LoadHead(q) == LoadHead(l) == l;
    assert Contents(Peek(q)) == l.mem + Stored([], q.out) == [] + [];
  }

  /** With the same bound: a record that the stream still holds back is lost when its file is loaded. */
  lemma HeldBackLoses(a: Bytes, b: Bytes)
    requires |a| == |b| == 60000
    ensures var start := Startup(102400, []);
            var ops := [DoPush(a, 1, 0), DoPush(b, 1, 0), DoConsume];
            var q := Run(start, ops);
            && KeepsRun(start, ops) && Contents(q) == [b]
            && Admissible(q, DoPeek) && !Keeps(q, DoPeek) && Contents(Step(q, DoPeek)) == []
  {
    hide LoadAll, Save;
    var q0 := Startup(102400, []);
    var q1 := Step(q0, DoPush(a, 1, 0));
    SaveSize(b);
    LoadNothing();
    assert q1 == q0.(mem := [a], szMem := 60000, disappointed := false);
    var q2 := Step(q1, DoPush(b, 1, 0));
    SpillHeld(q1, b, 1);
    assert q2.files == [File(1, [])] && q2.out == Open(1, 60002, Save(b)) && q2.mem == [a];
    var q3 := Step(q2, DoConsume);
    assert q3.mem == [] && q3.files == q2.files && q3.out == q2.out;
    HeldBackRecord(b, q3);
    RunCons(q0, DoPush(a, 1, 0), [DoPush(b, 1, 0), DoConsume]);
    RunCons(q1, DoPush(b, 1, 0), [DoConsume]);
    RunCons(q2, DoConsume, []);
    assert [DoPush(a, 1, 0)] + [DoPush(b, 1, 0), DoConsume] == [DoPush(a, 1, 0), DoPush(b, 1, 0), DoConsume];
    assert [DoPush(b, 1, 0)] + [DoConsume] == [DoPush(b, 1, 0), DoConsume];
  }
}
