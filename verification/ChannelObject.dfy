// A channel as an object (channels.cc): each operation, on the fields, the payload queue and the
// header buffers, does what Channels says.
module ChannelObjects {
  import opened Basics
  import opened Wire
  import opened SpillQueue
  import opened QueueRuns
  import opened PayloadQueues
  import opened Channels
  import opened ChannelFacts

  class Channel {
    const id: nat
    const tag: nat  // label
    const queue: PayloadQueue
    const clids: array<byte>
    const labels: array<byte>
    const lenword: array<byte>
    var current: Option<Bytes>
    var done: nat
    var pending: bool  // queue_event
    ghost var live: bool
    ghost var submitted: seq<Bytes>

    /** `current` points at the head of the queue. */
    ghost predicate Ok()
      reads this, queue
    {
      && clids.Length == labels.Length == lenword.Length == FIELD_BYTES
      && (current.Some? ==> queue.mem != [] && current.value == queue.mem[0])
    }

    ghost function View(): Chan
      reads this, queue
    {
      Chan(tag, queue.State(), current.Some?, done, pending, live, submitted)
    }

    /** What the channel owns beside itself. */
    ghost function Owned(): set<object> {
      {queue, clids, labels, lenword}
    }

    constructor (id: nat, tag: nat, queue: PayloadQueue)
      ensures Ok() && this.id == id && this.tag == tag && this.queue == queue
      ensures View() == Chan(tag, queue.State(), false, 0, false, false, Contents(queue.State()))
    {
      this.id, this.tag, this.queue := id, tag, queue;
      clids, labels, lenword := new byte[FIELD_BYTES], new byte[FIELD_BYTES], new byte[FIELD_BYTES];
      current, done, pending, live := None, 0, false, false;
      submitted := Contents(queue.State());
    }

    method ActivateQueue()
      requires Ok()
      modifies this`pending, this`live, queue
      ensures Ok() && View() == Activate(old(View()))
    {
      var wakes := queue.Poke();
      if wakes { pending := true; }
      live := true;
    }

    /** Presents what is left of the message at the head of the queue, in one or more buffers. */
    method DescribeInto() returns (ok: bool, iov: seq<Bytes>)
      requires Ok() && ChanValid(View()) && Describable(View())
      modifies this`current, this`done, queue, clids, labels, lenword
      ensures Ok() && View() == Describe(old(View())) && ChanValid(View())
      ensures ok <==> View().held
      ensures ok ==> Flatten(iov) == Offer(View())
    {
      hide ChanValid, Encode, Peek, Presentable;
      ghost var was := View();
      DescribeEffect(was);
      iov := [];
      if current == None {
        current := queue.PeekHead();
        if current == None { return false, []; }
        done := 0;
      }
      assert View() == Describe(was);
      HeldShape(View());
      iov := Slices(current.value);
      ok := true;
    }

    /** The unsent parts of the header and of the payload; the three assertions are demanded. */
    method Slices(entry: Bytes) returns (iov: seq<Bytes>)
      requires clids.Length == labels.Length == lenword.Length == FIELD_BYTES
      requires Presentable(entry, done) && done < |Encode(FrameOf(tag, entry))|
      modifies clids, labels, lenword
      ensures Flatten(iov) == Encode(FrameOf(tag, entry))[done..]
    {
      hide Encode, Field, Rest;
      ghost var f := FrameOf(tag, entry);
      EncodeSize(f);
      var payload := entry[CLID_SIZE..];
      var clid := LittleValue(entry[..CLID_SIZE]);
      LowField(clid);
      iov := Headers(clid, |payload|);
      var m := if done > HEADER_BYTES then HEADER_BYTES + |payload| - done else |payload|;
      assert m == Unsent(entry, done) > 0;
      SlicesMakeSuffix(f, done, iov);
      FlattenAppend(iov, [payload[|payload| - m..]]);
      iov := iov + [payload[|payload| - m..]];
    }

    /** The unsent parts of the three header fields. */
    method Headers(clid: nat, plsize: nat) returns (iov: seq<Bytes>)
      requires clids.Length == labels.Length == lenword.Length == FIELD_BYTES
      modifies clids, labels, lenword
      ensures Flatten(iov) == Rest(Field(clid), done, 0) + Rest(Field(tag), done, LABEL_AT)
                              + Rest(Field(plsize), done, LENGTH_AT)
    {
      var pushed;
      pushed, iov := FieldToBytes(clid, clids, done, 0, []);
      pushed, iov := FieldToBytes(tag, labels, done, LABEL_AT, iov);
      pushed, iov := FieldToBytes(plsize, lenword, done, LENGTH_AT, iov);
    }

    /** Acknowledges that some of what was presented has been sent; tells whether that was all. */
    method Acknowledge(n: nat) returns (all: bool)
      requires Ok() && ChanValid(View()) && View().held && n <= |Offer(View())|
      modifies this`current, this`done, this`pending, queue
      ensures Ok() && View() == Consumed(old(View()), n) && ChanValid(View())
      ensures all <==> !View().held
    {
      hide ChanValid, Encode, Peek;
      ghost var was := View();
      ConsumedEffect(was, n);
      HeldShape(was);
      EncodeSize(Head(was));
      var plsize := |current.value| - CLID_SIZE;
      done := done + n;
      if done == HEADER_BYTES + plsize {
        HeadWeight(was);
        var dummy := queue.ConsumeHead();
        current := None;
        var wakes := queue.Poke();
        if wakes { pending := true; }
        return true;
      }
      return false;
    }

    method Fail()
      requires Ok()
      modifies this`current
      ensures Ok() && View() == Failed(old(View()))
    {
      current := None;
    }

    method SubmitDatagram(clid: nat, payload: Bytes, now: nat, flush: nat)
      requires Ok() && ChanValid(View()) && Good(Entry(clid, payload)) && Ahead(now, queue.files)
      modifies this`pending, this`submitted, queue
      ensures Ok() && View() == Submit(old(View()), clid, payload, now, flush) && ChanValid(View())
    {
      hide ChanValid, Good, Push, Spill;
      SubmitEffect(View(), clid, payload, now, flush);
      if current.Some? { HeldShape(Submit(View(), clid, payload, now, flush)); }
      var pieces := [Little(clid, CLID_SIZE), payload];
      TwoPieces(pieces[0], pieces[1]);
      var wakes := queue.PushPieces(pieces, now, flush);
      if wakes { pending := true; }
      submitted := submitted + [Entry(clid, payload)];
    }
  }

  lemma LowField(v: nat)
    ensures Field(v) == Field(v % 65536)
  {
    assert v / 256 % 256 == v % 65536 / 256 && v % 256 == v % 65536 % 256;
  }

  lemma TwoPieces(a: Bytes, b: Bytes)
    ensures Flatten([a, b]) == a + b
  {
    assert [a, b][1..] == [b];
    assert Flatten([b]) == b + Flatten([]) == b;
  }

  lemma HeldShape(c: Chan)
    requires ChanValid(c) && c.held
    ensures c.q.mem != [] && CLID_SIZE <= |c.q.mem[0]| <= MAX_RECORD && c.done < |Encode(Head(c))|
    ensures Good(c.q.mem[0])
  {
  }

  lemma HeadWeight(c: Chan)
    requires ChanValid(c) && c.held
    ensures c.q.szMem >= |c.q.mem[0]|
  {
  }

  /** The three header slices, with what is unsent of the payload, are the unsent end of the frame. */
  lemma SlicesMakeSuffix(f: Frame, done: nat, iov: seq<Bytes>)
    requires done < HEADER_BYTES + |f.payload|
    requires Flatten(iov) == Rest(Field(f.clid), done, 0) + Rest(Field(f.tag), done, LABEL_AT)
                             + Rest(Field(|f.payload|), done, LENGTH_AT)
    ensures var m := if done > HEADER_BYTES then HEADER_BYTES + |f.payload| - done else |f.payload|;
            0 <= m <= |f.payload|
            && |Encode(f)| == HEADER_BYTES + |f.payload|
            && Flatten(iov) + Flatten([f.payload[|f.payload| - m..]]) == Encode(f)[done..]
  {
    assert |Field(f.clid)| == |Field(f.tag)| == |Field(|f.payload|)| == FIELD_BYTES;
    hide Field;
    EncodeSize(f);
    var m := if done > HEADER_BYTES then HEADER_BYTES + |f.payload| - done else |f.payload|;
    var tail := f.payload[|f.payload| - m..];
    assert Flatten([tail]) == tail + Flatten([]) == tail;
    FourParts(Field(f.clid), Field(f.tag), Field(|f.payload|), f.payload, done);
  }

  lemma DropInto(x: Bytes, y: Bytes, n: nat)
    requires n <= |x| + |y|
    ensures (x + y)[n..] == if n < |x| then x[n..] + y else y[n - |x|..]
  {
  }

  /** Dropping from three fields and a payload leaves what is unsent of each. */
  lemma FourParts(a: Bytes, b: Bytes, c: Bytes, d: Bytes, done: nat)
    requires |a| == |b| == |c| == FIELD_BYTES && done < HEADER_BYTES + |d|
    ensures (a + b + c + d)[done..] == Rest(a, done, 0) + Rest(b, done, LABEL_AT) + Rest(c, done, LENGTH_AT)
                                       + d[if done > HEADER_BYTES then done - HEADER_BYTES else 0..]
  {
    assert (a + b + c + d)[done..] == Dropped(a + b + c, done) + Dropped(d, done - HEADER_BYTES) by {
      DropInto(a + b + c, d, done);
    }
    assert Dropped(a + b + c, done) == Dropped(a + b, done) + Rest(c, done, LENGTH_AT) by {
      if done < HEADER_BYTES { DropInto(a + b, c, done); }
    }
    assert Dropped(a + b, done) == Rest(a, done, 0) + Rest(b, done, LABEL_AT) by {
      if done < LENGTH_AT { DropInto(a, b, done); }
    }
  }

  /** What is left of `s` after `n` bytes. */
  function Dropped(s: Bytes, n: int): Bytes {
    if n <= 0 then s else if n < |s| then s[n..] else []
  }

  /** What is unsent of a field at offset `pos`. */
  function Rest(field: Bytes, done: nat, pos: nat): Bytes
    requires |field| == FIELD_BYTES
  {
    if done >= pos + FIELD_BYTES then [] else field[if done > pos then done - pos else 0..]
  }
}
