// What a channel's operations keep (channels.cc over queues.cc).
module ChannelFacts {
  import opened Basics
  import opened Wire
  import opened Records
  import opened SpillQueue
  import opened QueueRuns
  import opened Channels

  lemma StillGood(q: Queue, q': Queue)
    requires forall e :: e in Contents(q) ==> Good(e)
    requires Subsequence(Contents(q'), Contents(q))
    ensures forall e :: e in Contents(q') ==> Good(e)
  {
    hide Good, Contents;
    SubsequenceSize(Contents(q'), Contents(q));
  }

  lemma DescribeEffect(c: Chan)
    requires ChanValid(c)
    ensures var d := Describe(c);
            && ChanValid(d)
            && d.(q := c.q, held := c.held, done := c.done) == c
            && (c.held ==> d == c)
            && (!c.held && d.held ==> d.done == 0)
            && (!d.held ==> Waiting(d.q) && Contents(d.q) == [])
            && Subsequence(Contents(d.q), Contents(c.q))
            && (Contents(d.q) == Contents(c.q) <==> c.held || PeekKeeps(c.q))
  {
    hide Valid, Contents, Good, PeekKeeps, Encode;
    SubsequenceRefl(Contents(c.q));
    if !c.held {
      PeekEffect(c.q);
      var q := Peek(c.q);
      StillGood(c.q, q);
      if q.mem != [] {
        assert q.mem[0] in Contents(q);
        GoodSize(q.mem[0]);
        GoodFits(c.tag, q.mem[0]);
      }
    }
  }

  /** A channel can be described if and only if the datagram that it takes up is not empty. */
  lemma DescribableExactly(c: Chan)
    requires ChanValid(c)
    ensures var d := Describe(c);
            Describable(c) <==> (d.held ==> d.q.mem != [] && Full(d.q.mem[0]))
  {
    hide Encode, Peek, Contents, Full, Good, Unsent, Presentable;
    DescribeEffect(c);
    var d := Describe(c);
    if d.held {
      GoodSize(d.q.mem[0]);
      GoodFits(d.tag, d.q.mem[0]);
      PresentableExactly(d.q.mem[0], d.done);
    }
  }

  lemma PokeEffect(c: Chan)
    requires ChanValid(c)
    ensures var p := Poke(c);
            && ChanValid(p)
            && p.(q := c.q, pending := c.pending) == c
            && (p.pending || Waiting(p.q))
            && (p.pending <==> c.pending || p.q.mem != [])
            && Subsequence(Contents(p.q), Contents(c.q))
            && (Contents(p.q) == Contents(c.q) <==> PeekKeeps(c.q))
            && (c.held ==> p.q == c.q)
  {
    hide Valid, Contents, Good, PeekKeeps, Encode;
    PeekEffect(c.q);
    StillGood(c.q, Peek(c.q));
  }

  /** Consuming the last of a frame removes its entry from the queue; consuming less leaves the
      queue alone. */
  lemma ConsumedEffect(c: Chan, n: nat)
    requires ChanValid(c) && c.held && n <= |Offer(c)|
    ensures var d := Consumed(c, n);
            && ChanValid(d)
            && (c.pending ==> d.pending)
            && d.(q := c.q, held := c.held, done := c.done, pending := c.pending) == c
            && (d.held <==> n < |Offer(c)|)
            && (d.held ==> d == c.(done := c.done + n))
            && (!d.held ==> (d.pending || Waiting(d.q)) && (d.pending <==> c.pending || d.q.mem != [])
                            && Subsequence([c.q.mem[0]] + Contents(d.q), Contents(c.q))
                            && ([c.q.mem[0]] + Contents(d.q) == Contents(c.q) <==> PeekKeeps(Consume(c.q))))
  {
    hide Good, Encode, Peek, Contents, Valid, Poke, Consume, PeekKeeps, Waiting, Subsequence;
    if n == |Offer(c)| {
      var popped := c.(q := Consume(c.q), held := false, done := c.done + n);
      PoppedValid(c, n);
      PokeEffect(popped);
      FrontKept(c.q.mem[0], Contents(Poke(popped).q), Contents(popped.q));
    }
  }

  /** Without its head, and with nothing under way. */
  lemma PoppedValid(c: Chan, n: nat)
    requires ChanValid(c) && c.held
    ensures ChanValid(c.(q := Consume(c.q), held := false, done := c.done + n))
    ensures c.q.mem != [] && Contents(c.q) == [c.q.mem[0]] + Contents(Consume(c.q))
  {
    hide Good, Encode, Contents, Valid, Consume;
    ConsumeEffect(c.q);
    forall x | x in Contents(Consume(c.q)) ensures Good(x) {
      assert x in Contents(c.q);
    }
  }

  lemma FrontKept(e: Bytes, now: seq<Bytes>, rest: seq<Bytes>)
    requires Subsequence(now, rest)
    ensures Subsequence([e] + now, [e] + rest) && ([e] + now == [e] + rest <==> now == rest)
  {
    SubsequencePrefix([e], now, rest);
    assert ([e] + now)[1..] == now && ([e] + rest)[1..] == rest;
  }

  lemma ConsumeEffect(q: Queue)
    requires Valid(q) && q.mem != []
    ensures Valid(Consume(q)) && Contents(q) == [q.mem[0]] + Contents(Consume(q))
    ensures Contents(Consume(q)) == Contents(q)[1..]
  {
    hide FilesValid, Stored;
  }

  lemma GoodSize(entry: Bytes)
    requires Good(entry)
    ensures CLID_SIZE <= |entry| <= MAX_RECORD
  {
  }

  lemma SubmitEffect(c: Chan, clid: nat, payload: Bytes, now: nat, flush: nat)
    requires ChanValid(c) && Good(Entry(clid, payload)) && Ahead(now, c.q.files)
    ensures var d := Submit(c, clid, payload, now, flush); var entry := Entry(clid, payload);
            && ChanValid(d)
            && d.(q := c.q, pending := c.pending, submitted := c.submitted) == c
            && d.submitted == c.submitted + [entry]
            && (c.held ==> d.q.mem[0] == c.q.mem[0])
            && (d.pending <==> c.pending || (c.q.mem == [] && c.q.files == [] && c.q.disappointed))
            && Contents(d.q) == Contents(c.q) + if PushKeeps(c.q, entry) then [entry] else []
  {
    hide FilesValid, Stored, Encode, Good, Spill;
    assert TotalLength([]) == 0;
    var entry := Entry(clid, payload);
    GoodSize(entry);
    PushEffect(c.q, entry, now, flush);
  }
}
