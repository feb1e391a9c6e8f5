// The payload queue as an object (queues.cc): each operation, step by step, does to the fields
// what SpillQueue says.
module PayloadQueues {
  import opened Basics
  import opened Wire
  import opened Records
  import opened SpillQueue
  import opened QueueRuns
  import opened QueueFiles

  class PayloadQueue {
    const maxMem: nat
    var mem: seq<Bytes>      // queue
    var szMem: nat
    var files: seq<File>     // queue_fns and the files it names
    var out: Out             // out and sz_out
    var amount: nat          // the quota manager's entry for this queue
    var age: nat             // and the age it has on record
    var disappointed: bool

    ghost function State(): Queue
      reads this
    {
      Queue(maxMem, mem, szMem, files, out, amount, disappointed)
    }

    constructor (maxMem: nat, files: seq<File>, amount: nat, age: nat)
      ensures State() == Startup(maxMem, files).(amount := amount) && this.age == age
    {
      this.maxMem, this.files, this.amount, this.age := maxMem, files, amount, age;
      mem, szMem, out, disappointed := [], 0, Closed, true;
    }

    /** Finds the files of the directory, in whatever order it lists them; a queue file whose name has no
        key to read is an error.  If no two have the same key, the charge is the size of the files; otherwise one
        of them is found and the others are charged all the same.  The age that is reported to the quota
        manager is always zero, which means none. */
    static method Start(maxMem: nat, dir: map<string, Bytes>) returns (q: PayloadQueue?)
      ensures q == null <==> !Readable(dir)
      ensures q != null ==>
              && fresh(q) && q.maxMem == maxMem && q.age == 0
              && q.mem == [] && q.szMem == 0 && q.out == Closed && q.disappointed
              && Lists(q.files, dir) && q.amount >= DiscUse(q.files, Closed)
              && q.State() == Startup(maxMem, q.files).(amount := q.amount)
              && (Distinct(dir) ==> q.State() == Startup(maxMem, q.files))
    {
      hide Lists, Readable, Distinct, IsQueueFile, KeyOf, DiscUse, Insert;
      var found: seq<File> := [];
      var tsz, oldest := 0, 0;
      var names := dir.Keys;
      assert dir - names == map[];
      NothingListed();
      while names != {}
        invariant names <= dir.Keys && Lists(found, dir - names) && Readable(dir - names)
        invariant tsz >= DiscUse(found, Closed) && (Distinct(dir) ==> tsz == DiscUse(found, Closed))
        invariant oldest == 0
        decreases names
      {
        var fn :| fn in names;
        ghost var seen := dir - names;
        names := names - {fn};
        assert dir - names == seen[fn := dir[fn]];
        ReadableNext(seen, fn, dir[fn]);
        if Distinct(dir) { DistinctPart(dir, names); }
        if IsQueueFile(fn) {
          var read := KeyOf(fn);
          if read == None {
            if Readable(dir) { ReadablePart(dir, names); }
            return null;
          }
          ListsNext(found, seen, fn, dir[fn]);
          var key := read.value;
          found := Insert(found, File(key, dir[fn]));
          if oldest != 0 || key < oldest { oldest := key; }
          tsz := tsz + |dir[fn]|;
        } else {
          ListsOther(found, seen, fn, dir[fn]);
        }
      }
      assert dir - names == dir;
      q := new PayloadQueue(maxMem, found, tsz, oldest);
    }

    method LoadHeadFile() returns (ok: bool)
      requires mem == []
      modifies this`mem, this`szMem, this`files, this`amount
      ensures State() == LoadHead(old(State()))
      ensures ok <==> mem != []
    {
      ghost var start := State();
      if files == [] { return false; }
      var more := true;
      while more
        invariant LoadHead(start) == if more then LoadHead(State()) else State()
        invariant more ==> mem == [] && files != []
        invariant !more ==> (mem != [] || files == [])
        decreases more, |files|
      {
        ghost var before := State();
        LoadFirstFile();
        assert LoadHead(before) == if mem == [] then LoadHead(State()) else State();
        if mem != [] || files == [] { more := false; }
      }
      ok := mem != [];
    }

    /** Loads the first file, then removes it. */
    method LoadFirstFile()
      requires files != []
      modifies this`mem, this`szMem, this`files, this`amount
      ensures State() == LoadFile(old(State()))
    {
      var sum := ReadRecords(files[0].bytes);
      files := files[1..];
      amount := if amount < sum then 0 else amount - sum;
    }

    /** Reads records until one fails. */
    method ReadRecords(fin: Bytes) returns (sum: nat)
      modifies this`mem, this`szMem
      ensures mem == old(mem) + LoadAll(fin) && szMem == old(szMem) + TotalLength(LoadAll(fin))
      ensures sum == StoredSize(LoadAll(fin))
    {
      hide LoadOne, LoadAll, StoredSize, TotalLength;
      sum := 0;
      var at := 0;
      ghost var loaded: seq<Bytes> := [];
      NoneYet();
      var pl := LoadOne(fin[at..]);
      assert fin[0..] == fin && [] + LoadAll(fin) == LoadAll(fin);
      while pl.Some?
        invariant at <= |fin| && pl == LoadOne(fin[at..])
        invariant LoadAll(fin) == loaded + LoadAll(fin[at..])
        invariant mem == old(mem) + loaded && szMem == old(szMem) + TotalLength(loaded)
        invariant sum == StoredSize(loaded)
        decreases |fin| - at
      {
        LoadTurn(fin, at, loaded);
        OneMore(loaded, pl.value);
        loaded := loaded + [pl.value];
        sum := sum + PREFIX_BYTES + |pl.value|;
        szMem := szMem + |pl.value|;
        mem := mem + [pl.value];
        at := at + PREFIX_BYTES + |pl.value|;
        pl := LoadOne(fin[at..]);
      }
      LoadTurn(fin, at, loaded);
    }

    /** The head of the queue, if there is one; if not, the user is to be told of the next. */
    method PeekHead() returns (head: Option<Bytes>)
      modifies this`mem, this`szMem, this`files, this`amount, this`disappointed
      ensures State() == Peek(old(State()))
      ensures head == if mem == [] then None else Some(mem[0])
    {
      if mem == [] {
        var ok := LoadHeadFile();
        if !ok {
          disappointed := true;
          return None;
        }
      }
      head := Some(mem[0]);
    }

    /** Tells whether the user is called back. */
    method Poke() returns (wakes: bool)
      modifies this`mem, this`szMem, this`files, this`amount, this`disappointed
      ensures State() == Peek(old(State())) && (wakes <==> mem != [])
    {
      var head := PeekHead();
      wakes := head.Some?;
    }

    method ConsumeHead() returns (into: Option<Bytes>)
      requires mem != [] ==> szMem >= |mem[0]|
      modifies this`mem, this`szMem
      ensures State() == Consume(old(State()))
      ensures into == if old(mem) == [] then None else Some(old(mem)[0])
    {
      into := None;
      if mem != [] {
        szMem := szMem - |mem[0]|;
        into := Some(mem[0]);
        mem := mem[1..];
      }
    }

    /** The quota manager's callback. */
    method DiscardFile()
      modifies this`files, this`amount
      ensures State() == Discard(old(State()))
    {
      if files == [] { return; }
      var sz := |files[0].bytes|;
      files := files[1..];
      amount := if amount < sz then 0 else amount - sz;
    }

    /** Adds an entry made of several pieces; tells whether the user is called back.  The entry
        goes to the end of the queue exactly when it is kept. */
    method PushPieces(arr: seq<Bytes>, now: nat, flush: nat) returns (wakes: bool)
      modifies this`mem, this`szMem, this`files, this`out, this`amount, this`disappointed
      ensures State() == Push(old(State()), Flatten(arr), now, flush)
      ensures wakes <==> PushWakes(old(State()), Flatten(arr))
      ensures old(Valid(State()) && |Flatten(arr)| <= MAX_RECORD && Ahead(now, files)) ==>
        Valid(State()) && (Contents(State()) == old(Contents(State())) + [Flatten(arr)]
                           <==> old(PushKeeps(State(), Flatten(arr))))
    {
      hide Contents, Valid, Spill, PushKeeps, Ahead;
      ghost var start, rec := State(), Flatten(arr);
      assert Valid(start) && |rec| <= MAX_RECORD && Ahead(now, start.files) ==>
        Valid(Push(start, rec, now, flush))
        && (Contents(Push(start, rec, now, flush)) == Contents(start) + [rec] <==> PushKeeps(start, rec)) by {
        if Valid(start) && |rec| <= MAX_RECORD && Ahead(now, start.files) {
          PushEffect(start, rec, now, flush);
        }
      }
      var len := SumLengths(arr);
      if files == [] && szMem + len < maxMem {
        var wasEmpty := mem == [];
        var entry := Join(arr);
        mem := mem + [entry];
        szMem := szMem + len;
        if wasEmpty && disappointed {
          disappointed := false;
          return true;
        }
        return false;
      }
      SpillPieces(arr, len, now, flush);
      wakes := false;
    }

    method SpillPieces(arr: seq<Bytes>, len: nat, now: nat, flush: nat)
      requires len == |Flatten(arr)|
      modifies this`files, this`out, this`amount
      ensures State() == Spill(old(State()), Flatten(arr), now, flush)
    {
      hide Written, Flatten;
      if out.Closed? || out.size + (PREFIX_BYTES + len) >= maxMem {
        if out.Open? { PassOn(|out.pending|); }
        files := Insert(files, File(now, []));
        out := Open(now, 0, []);
        assert State() == OpenNew(old(State()), now);
      }
      SaveTo(arr, len);
      out := out.(size := out.size + len + PREFIX_BYTES);
      PassOn(flush);
      if out.size >= maxMem {
        PassOn(|out.pending|);
        out := Closed;
      }
      amount := amount + (len + PREFIX_BYTES);
    }

    /** Some of what the stream holds reaches its file, if that is still there. */
    method PassOn(n: nat)
      requires out.Open?
      modifies this`files, this`out
      ensures State() == Flush(old(State()), n)
    {
      var m := Min(n, |out.pending|);
      files := Written(files, out.key, out.pending[..m]);
      out := out.(pending := out.pending[m..]);
    }

    /** Writes one record to the stream. */
    method SaveTo(arr: seq<Bytes>, len: nat)
      requires out.Open? && len == |Flatten(arr)|
      modifies this`out
      ensures out == old(out).(pending := old(out).pending + Save(Flatten(arr)))
    {
      out := out.(pending := out.pending + Field(len));
      for i := 0 to |arr|
        invariant out == old(out).(pending := old(out).pending + Field(len) + Flatten(arr[..i]))
      {
        FlattenOne(arr, i);
        out := out.(pending := out.pending + arr[i]);
      }
      assert arr[..|arr|] == arr;
    }

    method SavedMemory() returns (bytes: Bytes)
      ensures bytes == SaveAll(mem)
    {
      bytes := [];
      for i := 0 to |mem|
        invariant bytes == SaveAll(mem[..i])
      {
        SaveOneMore(mem, i);
        bytes := bytes + Save(mem[i]);
      }
      assert mem[..|mem|] == mem;
    }

    /** Leaves the files behind; what was in memory goes under the key before the first.  The quota manager
        gets the size of the files back, as far as the charge goes, and then forgets the rest: together the
        whole charge, no more and no less. */
    method Destroy(now: nat) returns (left: seq<File>, back: nat, forgotten: nat)
      modifies this`files, this`out, this`amount
      ensures left == Shutdown(old(State()), now)
      ensures back + forgotten == old(amount) && amount == 0
      ensures back == Min(old(amount), DiscUse(if old(mem) != [] then left else old(files), Closed))
    {
      if mem != [] {
        var key := if files == [] then now else files[0].key;
        key := if key == 0 then WORD - 1 else key - 1;
        if out.Open? {
          PassOn(|out.pending|);
        }
        assert files == CloseOut(old(State())).files && mem == old(mem);
        var bytes := SavedMemory();
        out := Closed;
        files := Insert(files, File(key, bytes));
      }
      back := GiveBack();
      forgotten := amount;
      amount := 0;
      if out.Open? {
        PassOn(|out.pending|);
      }
      left := files;
    }

    /** The sizes of the files are taken off the charge. */
    method GiveBack() returns (back: nat)
      modifies this`amount
      ensures back == Min(old(amount), DiscUse(files, Closed)) && amount == old(amount) - back
    {
      hide DiscUse;
      var sum := 0;
      NothingUsed();
      for i := 0 to |files|
        invariant sum == DiscUse(files[..i], Closed) && amount == old(amount)
      {
        UsedNext(files, i);
        sum := sum + |files[i].bytes|;
      }
      assert files[..|files|] == files;
      back := if amount < sum then amount else sum;
      amount := amount - back;
    }
  }

  lemma NothingListed()
    ensures Lists([], map[]) && Readable(map[]) && DiscUse([], Closed) == 0
  {
  }

  lemma ReadableNext(dir: map<string, Bytes>, name: string, bytes: Bytes)
    requires Readable(dir) && name !in dir
    ensures Readable(dir[name := bytes]) <==> (IsQueueFile(name) ==> KeyOf(name).Some?)
  {
    hide IsQueueFile, KeyOf;
    assert name in dir[name := bytes];
  }

  lemma ReadablePart(dir: map<string, Bytes>, names: set<string>)
    requires Readable(dir)
    ensures Readable(dir - names)
  {
    hide IsQueueFile, KeyOf;
  }

  lemma DistinctPart(dir: map<string, Bytes>, names: set<string>)
    requires Distinct(dir)
    ensures Distinct(dir - names)
  {
    hide IsQueueFile, KeyOf;
  }

  lemma NothingUsed()
    ensures DiscUse([], Closed) == 0
  {
  }

  lemma UsedNext(files: seq<File>, i: nat)
    requires i < |files|
    ensures DiscUse(files[..i + 1], Closed) == DiscUse(files[..i], Closed) + |files[i].bytes|
  {
    hide LoadAll;
    assert files[..i + 1] == files[..i] + [files[i]];
    StoredSplit(files[..i], [files[i]], Closed);
    OneFile(files[i], Closed);
  }

  lemma OneMore(ps: seq<Bytes>, p: Bytes)
    ensures StoredSize(ps + [p]) == StoredSize(ps) + PREFIX_BYTES + |p|
    ensures TotalLength(ps + [p]) == TotalLength(ps) + |p|
  {
    StoredSizeSplit(ps, [p]);
  }

  lemma NoneYet()
    ensures StoredSize([]) == 0 && TotalLength([]) == 0
  {
  }

  lemma LoadTurn(fin: Bytes, at: nat, loaded: seq<Bytes>)
    requires at <= |fin|
    ensures match LoadOne(fin[at..])
            case None => loaded + LoadAll(fin[at..]) == loaded
            case Some(p) =>
              at + PREFIX_BYTES + |p| <= |fin|
              && loaded + LoadAll(fin[at..]) == (loaded + [p]) + LoadAll(fin[at + PREFIX_BYTES + |p|..])
  {
    if LoadOne(fin[at..]).Some? {
      var p := LoadOne(fin[at..]).value;
      LoadOneShape(fin[at..]);
      assert fin[at..][PREFIX_BYTES + |p|..] == fin[at + PREFIX_BYTES + |p|..];
    }
  }

  lemma FlattenOne(arr: seq<Bytes>, i: nat)
    requires i < |arr|
    ensures Flatten(arr[..i + 1]) == Flatten(arr[..i]) + arr[i]
  {
    assert arr[..i + 1] == arr[..i] + [arr[i]];
    FlattenAppend(arr[..i], [arr[i]]);
    assert Flatten([arr[i]]) == arr[i] + Flatten([]) == arr[i];
  }

  lemma SaveOneMore(ps: seq<Bytes>, i: nat)
    requires i < |ps|
    ensures SaveAll(ps[..i + 1]) == SaveAll(ps[..i]) + Save(ps[i])
  {
    hide Save;
    assert ps[..i + 1] == ps[..i] + [ps[i]];
    SaveSplit(ps[..i], [ps[i]]);
    assert SaveAll([ps[i]]) == Save(ps[i]) + SaveAll([]) == Save(ps[i]);
  }

  method SumLengths(arr: seq<Bytes>) returns (r: nat)
    ensures r == |Flatten(arr)|
  {
    r := 0;
    for i := 0 to |arr|
      invariant r == |Flatten(arr[..i])|
    {
      FlattenOne(arr, i);
      r := r + |arr[i]|;
    }
    assert arr[..|arr|] == arr;
  }

  /** The pieces copied into one block. */
  method Join(arr: seq<Bytes>) returns (base: Bytes)
    ensures base == Flatten(arr)
  {
    base := [];
    for i := 0 to |arr|
      invariant base == Flatten(arr[..i])
    {
      FlattenOne(arr, i);
      base := base + arr[i];
    }
    assert arr[..|arr|] == arr;
  }
}
