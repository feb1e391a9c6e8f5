// What the sending end of a tunnel keeps over any run (tcp_ingress.cc over channels.cc).
module TunnelRuns {
  import opened Basics
  import opened Wire
  import opened SpillQueue
  import opened Channels
  import opened ChannelFacts
  import opened Tunnel
  import opened TunnelLinks

  // ---------- histories ----------

  /** One channel's share of the completed messages. */
  function Share(sent: seq<Sent>, i: nat): seq<Bytes> {
    if sent == [] then []
    else
      var last := sent[|sent| - 1];
      Share(sent[..|sent| - 1], i) + if last.chan == i then [last.entry] else []
  }

  predicate LogOk(sent: seq<Sent>) {
    forall k :: 0 <= k < |sent| ==> sent[k].tag < 65536 && Good(sent[k].entry)
  }

  function FramesOf(sent: seq<Sent>): seq<Frame>
    requires LogOk(sent)
  {
    seq(|sent|, k requires 0 <= k < |sent| => FrameOf(sent[k].tag, sent[k].entry))
  }

  lemma ShareMore(sent: seq<Sent>, x: Sent, i: nat)
    ensures Share(sent + [x], i) == Share(sent, i) + if x.chan == i then [x.entry] else []
  {
    assert (sent + [x])[..|sent|] == sent;
  }

  // ---------- the invariant ----------

  ghost predicate ChanOk(c: Chan, i: nat, waiting: seq<nat>, sent: seq<Sent>) {
    && ChanValid(c)
    && (c.live ==> c.pending || i in waiting || Waiting(c.q))
    && (c.held ==> waiting != [] && waiting[0] == i)
    && Subsequence(Share(sent, i) + Contents(c.q), c.submitted)
  }

  ghost predicate ChansOk(t: Tunnel) {
    forall i :: 0 <= i < |t.chans| ==> ChanOk(t.chans[i], i, t.waiting, t.sent)
  }

  predicate QueueOk(t: Tunnel) {
    && (forall k :: 0 <= k < |t.waiting| ==> t.waiting[k] < |t.chans|)
    && (forall j, k :: 0 <= j < k < |t.waiting| ==> t.waiting[j] != t.waiting[k])
  }

  /** On an open connection the bytes accepted, after what an earlier connection had already had, spell the messages
      completed on this connection and the finished part of the next. */
  ghost predicate Framing(t: Tunnel)
    requires Sound(t)
  {
    && LogOk(t.sent) && t.mark <= |t.sent|
    && (t.sock ==> t.lead + t.wire == EncodeAll(FramesOf(t.sent[t.mark..])) + Partial(t))
  }

  /** The messages completed on the present connection. */
  ghost function CurrentFrames(t: Tunnel): seq<Frame>
    requires Inv(t)
  {
    FramesOf(t.sent[t.mark..])
  }

  ghost predicate Inv(t: Tunnel) {
    ChansOk(t) && QueueOk(t) && Sound(t) && Framing(t)
  }

  lemma InvSound(t: Tunnel)
    requires Inv(t)
    ensures Sound(t)
  {
  }

  lemma InvIsSound(t: Tunnel)
    requires ChansOk(t) && QueueOk(t)
    ensures Sound(t)
  {
    hide ChanValid, Contents, Share;
  }

  // ---------- one turn of the sending loop ----------

  /** Changing one channel, and removing it from the front of the queue if it is done. */
  lemma OneChanged(t: Tunnel, u: Tunnel, h: nat)
    requires ChansOk(t) && QueueOk(t) && t.waiting != [] && h == t.waiting[0]
    requires |u.chans| == |t.chans| && u.chans == t.chans[h := u.chans[h]]
    requires u.waiting == t.waiting || u.waiting == t.waiting[1..]
    requires u.sent == t.sent || exists x :: u.sent == t.sent + [x] && x.chan == h
    requires ChanOk(u.chans[h], h, u.waiting, u.sent)
    ensures ChansOk(u) && QueueOk(u) && Sound(u)
  {
    hide ChanValid, Contents, Share;
    forall i | 0 <= i < |u.chans| ensures ChanOk(u.chans[i], i, u.waiting, u.sent) {
      if i != h {
        assert ChanOk(t.chans[i], i, t.waiting, t.sent) && u.chans[i] == t.chans[i];
        if i in t.waiting {
          var k :| 0 <= k < |t.waiting| && t.waiting[k] == i;
          assert u.waiting == t.waiting[1..] ==> u.waiting[k - 1] == i;
        }
        if u.sent != t.sent {
          var x :| u.sent == t.sent + [x] && x.chan == h;
          ShareMore(t.sent, x, i);
          assert Share(u.sent, i) == Share(t.sent, i) + [] == Share(t.sent, i);
        }
      }
    }
    assert u.waiting == t.waiting[1..] ==> forall k :: 0 <= k < |u.waiting| ==> u.waiting[k] == t.waiting[k + 1];
  }

  lemma FewerContents(share: seq<Bytes>, now: seq<Bytes>, was: seq<Bytes>, submitted: seq<Bytes>)
    requires Subsequence(now, was) && Subsequence(share + was, submitted)
    ensures Subsequence(share + now, submitted)
  {
    SubsequencePrefix(share, now, was);
    SubsequenceTrans(share + now, share + was, submitted);
  }

  lemma DescribedInv(t: Tunnel)
    requires Inv(t) && t.waiting != []
    ensures var d := Described(t);
            && Inv(d)
            && d == t.(chans := d.chans)
            && (!HeadHeld(d) ==> Waiting(FirstChan(d).q))
  {
    hide ChanValid, Contents, Share, Describe, Encode, EncodeAll, LogOk;
    var h, d := t.waiting[0], Described(t);
    var c := t.chans[h];
    assert ChanOk(c, h, t.waiting, t.sent);
    DescribeEffect(c);
    FewerContents(Share(t.sent, h), Contents(Describe(c).q), Contents(c.q), c.submitted);
    OneChanged(t, d, h);
  }

  lemma SkipInv(t: Tunnel)
    requires Inv(t) && t.waiting != [] && !HeadHeld(t) && Waiting(FirstChan(t).q)
    ensures var u := Skip(t);
            Inv(u) && u.sock == t.sock && u.lead == t.lead && u.mark == t.mark
  {
    hide ChanValid, Contents, Share, Encode, EncodeAll, LogOk;
    var h := t.waiting[0];
    assert ChanOk(t.chans[h], h, t.waiting, t.sent);
    assert t.chans[h := t.chans[h]] == t.chans;
    OneChanged(t, Skip(t), h);
    NextNotHeld(t, Skip(t));
  }

  /** Only the first source has a message under way. */
  lemma NextNotHeld(t: Tunnel, u: Tunnel)
    requires ChansOk(t) && QueueOk(t) && Sound(u) && t.waiting != []
    requires u.waiting == t.waiting[1..] && |u.chans| == |t.chans|
    requires forall i :: 0 <= i < |t.chans| && i != t.waiting[0] ==> u.chans[i] == t.chans[i]
    ensures !HeadHeld(u)
  {
    hide ChanValid, Contents, Share;
    if u.waiting != [] {
      var n := u.waiting[0];
      assert n == t.waiting[1] != t.waiting[0];
      assert ChanOk(t.chans[n], n, t.waiting, t.sent);
    }
  }

  lemma TookInv(t: Tunnel, n: nat)
    requires Inv(t) && HeadHeld(t)
    ensures var u := TookSome(t, n);
            Inv(u) && u.sock == t.sock && u.lead == t.lead && u.mark == t.mark
  {
    hide ChansOk, QueueOk, Sound, Framing, TookSome;
    TookChans(t, n);
    TookFraming(t, n);
    TookShape(t, n);
  }

  /** What a successful send changes, in one place. */
  lemma TookShape(t: Tunnel, n: nat)
    requires Sound(t) && HeadHeld(t)
    ensures var c, u := FirstChan(t), TookSome(t, n); var k := Clip(n, |Offer(c)|); var d := Consumed(c, k);
            && c.tag < 65536 && c.q.mem != [] && Good(c.q.mem[0]) && |c.q.mem[0]| >= CLID_SIZE
            && 1 <= k <= |Offer(c)|
            && u == t.(chans := t.chans[t.waiting[0] := d], writable := false, wire := t.wire + Offer(c)[..k],
                       waiting := if d.held then t.waiting else t.waiting[1..],
                       sent := if d.held then t.sent else t.sent + [Sent(t.waiting[0], c.tag, c.q.mem[0])])
            && (d.held <==> k < |Offer(c)|) && (d.held ==> d == c.(done := c.done + k))
  {
    hide Encode, Consumed, Good, Contents, ChanValid, Offer, Sound;
    var c := FirstChan(t);
    OfferSize(c);
    HeadGood(c);
    GoodSize(c.q.mem[0]);
    ConsumedEffect(c, Clip(n, |Offer(c)|));
  }

  lemma TookChans(t: Tunnel, n: nat)
    requires Inv(t) && HeadHeld(t)
    ensures var u := TookSome(t, n); ChansOk(u) && QueueOk(u) && Sound(u)
  {
    hide ChanValid, Contents, Share, Consumed, Offer, Good, Framing, TookSome;
    var h, u := t.waiting[0], TookSome(t, n);
    var c := t.chans[h];
    TookShape(t, n);
    assert ChanOk(c, h, t.waiting, t.sent);
    var k := Clip(n, |Offer(c)|);
    var d := Consumed(c, k);
    ConsumedEffect(c, k);
    if !d.held {
      var x := Sent(h, c.tag, c.q.mem[0]);
      ShareMore(t.sent, x, h);
      FewerContents(Share(t.sent, h), [x.entry] + Contents(d.q), Contents(c.q), c.submitted);
      assert Share(u.sent, h) + Contents(d.q) == Share(t.sent, h) + ([x.entry] + Contents(d.q));
      assert u.sent == t.sent + [x];
    }
    OneChanged(t, u, h);
  }

  lemma TookFraming(t: Tunnel, n: nat)
    requires Inv(t) && HeadHeld(t) && Sound(TookSome(t, n))
    ensures Framing(TookSome(t, n))
  {
    hide ChanValid, Consumed, Encode, Good, TookSome, ChanOk, Offer, Framing, Sound;
    var c := FirstChan(t);
    TookShape(t, n);
    OfferIs(c);
    if Clip(n, |Offer(c)|) < |Offer(c)| {
      TookPart(t, n);
    } else {
      TookRest(t, n);
    }
  }

  /** The message goes on. */
  lemma TookPart(t: Tunnel, n: nat)
    requires Inv(t) && HeadHeld(t) && Sound(TookSome(t, n)) && Clip(n, |Offer(FirstChan(t))|) < |Offer(FirstChan(t))|
    ensures Framing(TookSome(t, n))
  {
    hide ChanValid, Consumed, Encode, EncodeAll, Good, TookSome, ChansOk, QueueOk, Offer, LogOk, FramesOf;
    var u, c := TookSome(t, n), FirstChan(t);
    TookShape(t, n);
    OfferIs(c);
    var k, whole := Clip(n, |Offer(c)|), Encode(Head(c));
    assert u.lead + u.wire == (t.lead + t.wire) + Offer(c)[..k];
    assert whole[..c.done + k] == whole[..c.done] + Offer(c)[..k];
  }

  /** The message is complete. */
  lemma TookRest(t: Tunnel, n: nat)
    requires Inv(t) && HeadHeld(t) && Sound(TookSome(t, n)) && Clip(n, |Offer(FirstChan(t))|) == |Offer(FirstChan(t))|
    ensures Framing(TookSome(t, n))
  {
    hide ChanValid, Consumed, Encode, EncodeAll, Good, TookSome, ChanOk, Offer, LogOk, FramesOf;
    var u, c := TookSome(t, n), FirstChan(t);
    TookShape(t, n);
    OfferIs(c);
    var k, whole := Clip(n, |Offer(c)|), Encode(Head(c));
    assert u.lead + u.wire == (t.lead + t.wire) + Offer(c)[..k];
    assert whole == whole[..c.done] + Offer(c)[..k];
    NextNotHeld(t, u);
    FramesMore(t.sent, t.mark, Sent(t.waiting[0], c.tag, c.q.mem[0]));
  }

  lemma OfferIs(c: Chan)
    requires ChanValid(c) && c.held
    ensures c.done <= |Encode(Head(c))| && Offer(c) == Encode(Head(c))[c.done..]
  {
    hide Encode, Good;
  }

  lemma HeadGood(c: Chan)
    requires ChanValid(c) && c.held
    ensures c.tag < 65536 && c.q.mem != [] && Good(c.q.mem[0])
  {
  }

  lemma FramesMore(sent: seq<Sent>, mark: nat, x: Sent)
    requires LogOk(sent) && mark <= |sent| && x.tag < 65536 && Good(x.entry)
    ensures LogOk(sent + [x])
    ensures EncodeAll(FramesOf((sent + [x])[mark..]))
            == EncodeAll(FramesOf(sent[mark..])) + Encode(FrameOf(x.tag, x.entry))
  {
    hide Encode;
    GoodSize(x.entry);
    var f := FrameOf(x.tag, x.entry);
    assert (sent + [x])[mark..] == sent[mark..] + [x];
    assert FramesOf((sent + [x])[mark..]) == FramesOf(sent[mark..]) + [f];
    EncodeAllAppend(FramesOf(sent[mark..]), [f]);
    assert EncodeAll([f]) == Encode(f) + EncodeAll([]) == Encode(f);
  }

  lemma BlockInv(t: Tunnel)
    requires Inv(t) && HeadHeld(t)
    ensures var u := Block(t);
            Inv(u) && u.sock == t.sock && u.lead == t.lead && u.mark == t.mark
  {
    hide ChanValid, Contents, Share, Encode, Good, EncodeAll, LogOk, Consumed;
    var h := t.waiting[0];
    assert ChanOk(t.chans[h], h, t.waiting, t.sent);
    OfferSize(t.chans[h]);
    ConsumedEffect(t.chans[h], 0);
    assert t.chans[h := t.chans[h]] == t.chans;
    OneChanged(t, Block(t), h);
  }

  /** A failed send forgets how much of the message was sent, and keeps the message. */
  lemma BreakInv(t: Tunnel)
    requires Inv(t) && HeadHeld(t)
    ensures var u := Break(t);
            Inv(u) && Partial(u) == [] && !u.sock && u.lead == t.lead && u.mark == t.mark
  {
    hide Valid, Contents, Share, Encode, Good, EncodeAll, LogOk;
    var h := t.waiting[0];
    assert ChanOk(t.chans[h], h, t.waiting, t.sent);
    OneChanged(t, Break(t), h);
  }

  lemma TurnInv(t: Tunnel, script: seq<Answer>)
    requires Inv(t) && t.sock && t.waiting != []
    ensures var turn := LoopTurn(t, script);
            && Inv(turn.t) && turn.t.lead == t.lead && turn.t.mark == t.mark
            && (turn.Again? ==> turn.t.sock)
            && (!turn.t.sock ==> Partial(turn.t) == [])
  {
    hide Inv, Sound, TookSome, Partial, Described, HeadHeld, Block, Break, Skip;
    InvSound(t);
    DescribedInv(t);
    InvSound(Described(t));
    var d := Described(t);
    if !HeadHeld(d) {
      SkipInv(d);
    } else if script == [] || script[0] == Blocked {
      BlockInv(d);
    } else if script[0] == Broken {
      BreakInv(d);
    } else {
      TookInv(d, script[0].n);
    }
  }

  lemma {:induction false} LoopInv(t: Tunnel, script: seq<Answer>)
    requires Inv(t) && t.sock
    ensures var u := SendLoop(t, script);
            Inv(u) && u.lead == t.lead && u.mark == t.mark && (!u.sock ==> Partial(u) == [])
    decreases |t.waiting|, Pending(t)
  {
    hide ChansOk, QueueOk, Sound, Framing, Partial, LoopTurn, Pending;
    if t.waiting == [] {
    } else {
      TurnInv(t, script);
      var turn := LoopTurn(t, script);
      if turn.Again? {
        LoopProgress(t, script);
        LoopInv(turn.t, turn.script);
      }
    }
  }

  // ---------- one event ----------

  /** Changing one channel without touching the message under way. */
  lemma OneReplaced(t: Tunnel, i: nat, c: Chan)
    requires Inv(t) && i < |t.chans| && ChanOk(c, i, t.waiting, t.sent)
    requires c.held == t.chans[i].held && c.tag == t.chans[i].tag && c.done == t.chans[i].done
    requires c.held ==> c.q.mem != [] && t.chans[i].q.mem != [] && c.q.mem[0] == t.chans[i].q.mem[0]
    ensures var u := t.(chans := t.chans[i := c]);
            Inv(u) && Partial(u) == Partial(t)
  {
    hide ChanOk, Encode, Good, EncodeAll, LogOk, Contents;
    var u := t.(chans := t.chans[i := c]);
    assert ChansOk(u);
    assert Sound(u) by { InvIsSound(u); }
    if HeadHeld(t) { HeadGood(FirstChan(t)); HeadGood(FirstChan(u)); }
  }

  lemma SubmittedInv(t: Tunnel, i: nat, clid: nat, payload: Bytes, now: nat, flush: nat)
    requires Inv(t) && Possible(t, Submitted(i, clid, payload, now, flush))
    ensures var u := Step(t, Submitted(i, clid, payload, now, flush));
            Inv(u) && Partial(u) == Partial(t)
  {
    hide Share, Contents, Good, Submit, Framing;
    var c := t.chans[i];
    assert ChanOk(c, i, t.waiting, t.sent);
    var d, entry := Submit(c, clid, payload, now, flush), Entry(clid, payload);
    SubmitEffect(c, clid, payload, now, flush);
    var held := Share(t.sent, i) + Contents(c.q);
    SubsequenceSuffix(held, c.submitted, [entry]);
    assert Share(t.sent, i) + (Contents(c.q) + [entry]) == held + [entry];
    assert Contents(c.q) + [] == Contents(c.q);
    OneReplaced(t, i, d);
  }

  lemma ActivatedInv(t: Tunnel, i: nat)
    requires Inv(t) && i < |t.chans|
    ensures var u := Step(t, Activated(i)); Inv(u) && Partial(u) == Partial(t)
  {
    hide Share, Contents, Good, Poke, Framing;
    var c := t.chans[i];
    assert ChanOk(c, i, t.waiting, t.sent);
    PokeEffect(c);
    FewerContents(Share(t.sent, i), Contents(Poke(c).q), Contents(c.q), c.submitted);
    OneReplaced(t, i, Activate(c));
  }

  /** A woken channel is in the queue before anything is sent. */
  lemma QueuedInv(t: Tunnel, i: nat)
    requires Inv(t) && i < |t.chans|
    ensures var u := t.(chans := t.chans[i := t.chans[i].(pending := false)],
                        waiting := if i in t.waiting then t.waiting else t.waiting + [i]);
            Inv(u) && Partial(u) == Partial(t)
  {
    hide ChanValid, Share, Contents, Encode, EncodeAll, LogOk, ChanOk, FramesOf;
    var u := t.(chans := t.chans[i := t.chans[i].(pending := false)],
                waiting := if i in t.waiting then t.waiting else t.waiting + [i]);
    forall j | 0 <= j < |u.chans| ensures ChanOk(u.chans[j], j, u.waiting, u.sent) {
      StillOk(t.chans[j], u.chans[j], i, j, t.waiting, u.waiting, t.sent);
    }
    InvIsSound(u);
    if t.waiting == [] {
      StillOk(t.chans[i], u.chans[i], i, i, t.waiting, u.waiting, t.sent);
    }
  }

  lemma StillOk(c: Chan, d: Chan, i: nat, j: nat, waiting: seq<nat>, waiting': seq<nat>, sent: seq<Sent>)
    requires ChanOk(c, j, waiting, sent)
    requires waiting' == if i in waiting then waiting else waiting + [i]
    requires d == if j == i then c.(pending := false) else c
    ensures ChanOk(d, j, waiting', sent) && (waiting == [] ==> !c.held)
  {
    hide ChanValid, Share, Contents;
    NotPending(c);
  }

  /** From a state that is sound once the channel is in the queue. */
  lemma ReadyInv(c: Tunnel, i: nat, u: Tunnel, script: seq<Answer>)
    requires Sound(c) && i < |c.chans| && Inv(u)
    requires u == if i in c.waiting then c else c.(waiting := c.waiting + [i])
    ensures var r := SourceReady(c, i, script);
            Inv(r) && r.lead == u.lead && (r.sock ==> u.sock)
            && (!u.sock ==> Partial(r) == Partial(u)) && (u.sock && !r.sock ==> Partial(r) == [])
  {
    hide Inv, Sound, Partial, TrySend;
    LinkChange(u, u.(addrs := [], lookup := true));
    if u.sock && u.connected {
      TrySendInv(u, script);
    }
  }

  lemma TrySendInv(t: Tunnel, script: seq<Answer>)
    requires Inv(t) && t.sock && t.connected
    ensures var u := TrySend(t, script);
            Inv(u) && u.lead == t.lead && (!u.sock ==> Partial(u) == [])
  {
    hide ChansOk, QueueOk, Sound, Framing, Partial, SendLoop;
    LinkChange(t, t.(watch := Watching(ALL_EVENTS)));
    LoopInv(t, script);
  }

  /** Only the connection side changes. */
  lemma LinkChange(t: Tunnel, u: Tunnel)
    requires Inv(t)
    requires u.chans == t.chans && u.waiting == t.waiting && u.sent == t.sent
    requires u.mark == t.mark && u.lead == t.lead && u.wire == t.wire && (u.sock ==> t.sock)
    ensures Inv(u) && Partial(u) == Partial(t)
  {
    hide ChanOk, ChanValid, Encode, EncodeAll, LogOk;
  }

  lemma OpenedInv(t: Tunnel, evs: set<Ev>)
    requires Inv(t)
    ensures Inv(Opened(t, evs)) && Opened(t, evs).lead == Partial(t) && Partial(Opened(t, evs)) == Partial(t)
  {
    hide ChanOk, ChanValid, Encode, LogOk;
    var u := Opened(t, evs);
    assert u.sent[u.mark..] == [];
    assert u.lead + u.wire == [] + Partial(t);
  }

  lemma ConnectInv(t: Tunnel, conns: seq<ConnAnswer>)
    requires Inv(t) && !t.sock
    ensures var u := TryConnect(t, conns);
            Inv(u) && Partial(u) == Partial(t) && u.lead == if u.sock then Partial(t) else t.lead
  {
    hide ChansOk, QueueOk, Sound, Framing, Partial, Connect, Opened;
    OpenedInv(t, {EvOut, EvHup});
    OpenedInv(t, ALL_EVENTS);
    OpenedFrame(t, {EvOut, EvHup});
    OpenedFrame(t, ALL_EVENTS);
    match Connect(t.ipv4, t.ipv6, t.addrs, conns)
    case Exhausted => LinkChange(t, TryConnect(t, conns));
    case Connecting(addrs) => LinkChange(Opened(t, {EvOut, EvHup}), TryConnect(t, conns));
    case Connected(addrs) => LinkChange(Opened(t, ALL_EVENTS), TryConnect(t, conns));
  }

  lemma OpenedFrame(t: Tunnel, evs: set<Ev>)
    requires Sound(t)
    ensures var u := Opened(t, evs);
            u.sock && u.chans == t.chans && u.sent == t.sent && u.waiting == t.waiting
  {
  }

  lemma NotifiedInv(t: Tunnel, soerr: bool, script: seq<Answer>, conns: seq<ConnAnswer>)
    requires Inv(t) && t.sock && t.addrs != []
    ensures var u := DescriptorReady(t, soerr, script, conns);
            && Inv(u)
            && (t.connected && Closing(t.watch.got) ==> !u.sock && Partial(u) == Partial(t) && u.lead == t.lead)
            && (!t.connected ==> Partial(u) == Partial(t) && (u.lead == t.lead || u.lead == Partial(t)))
            && (t.connected && !Closing(t.watch.got) ==> u.lead == t.lead && (!u.sock ==> Partial(u) == []))
  {
    hide ChansOk, QueueOk, Sound, Framing, Partial, TrySend, TryConnect;
    var r := t.(watch := t.watch.(queued := false));
    LinkChange(t, r);
    if !t.connected {
      var c := ClearSocket(r.(addrs := r.addrs[1..]));
      LinkChange(r, c);
      ConnectInv(c, conns);
      LinkChange(r, r.(connected := true, watch := Watching(ALL_EVENTS)));
    } else if Closing(t.watch.got) {
      LinkChange(r, ClearSocket(r).(timerSet := true));
    } else {
      LinkChange(r, r.(writable := true));
      TrySendInv(r.(writable := true), script);
    }
  }

  /** Every event keeps the invariant: the bytes of an open connection spell its messages, what has
      been sent and what is queued is what was submitted less what was lost, and a live channel
      with something queued is waiting or about to be woken. */
  lemma StepInv(t: Tunnel, e: Event)
    requires Inv(t) && Enabled(t, e)
    ensures Inv(Step(t, e))
  {
    hide ChansOk, QueueOk, Sound, Framing, Partial, SourceReady, DescriptorReady, TryConnect, Submit, Activate, Good,
      ChanValid;
    match e
    case Submitted(i, clid, payload, now, flush) => SubmittedInv(t, i, clid, payload, now, flush);
    case Activated(i) => ActivatedInv(t, i);
    case Woken(i, script) =>
      NotPending(t.chans[i]);
      SetChanSound(t, i, t.chans[i].(pending := false));
      QueuedInv(t, i);
      var c := t.(chans := t.chans[i := t.chans[i].(pending := false)]);
      ReadyInv(c, i, c.(waiting := if i in c.waiting then c.waiting else c.waiting + [i]), script);
    case Reported(evs) => LinkChange(t, Step(t, e));
    case Notified(soerr, script, conns) => NotifiedInv(t, soerr, script, conns);
    case TimerExpired => LinkChange(t, Step(t, e));
    case TimerNotified => LinkChange(t, Step(t, e));
    case LookedUp(addrs, conns) =>
      var r := t.(lookup := false, addrs := addrs, connected := false);
      LinkChange(t, r);
      ConnectInv(r, conns);
  }
}
