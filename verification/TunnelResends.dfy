// What becomes of a message once its entry is at the head of a channel's queue, however often sending
// it fails (channels.cc and tcp_ingress.cc).
module TunnelResends {
  import opened Basics
  import opened Wire
  import opened SpillQueue
  import opened Channels
  import opened ChannelFacts
  import opened Tunnel
  import opened TunnelLinks
  import opened TunnelRuns
  import opened TunnelTheorems
  import opened TunnelLosses
  import opened TunnelSendable

  /** The entry at the head of a channel's queue, in memory, stays there until its message has been
      completed, and nothing else of that channel is completed before it. */
  predicate HeadFirst(d: Chan, c: Chan, now: seq<Bytes>, was: seq<Bytes>) {
    && was <= now
    && (c.q.mem != [] ==>
          if now == was then d.q.mem != [] && d.q.mem[0] == c.q.mem[0]
          else was + [c.q.mem[0]] <= now)
  }

  ghost predicate HeadsFirst(u: Tunnel, t: Tunnel) {
    |u.chans| == |t.chans| && forall i: nat :: i < |t.chans| ==>
      HeadFirst(u.chans[i], t.chans[i], Share(u.sent, i), Share(t.sent, i))
  }

  lemma HeadFirstTwice(e: Chan, d: Chan, c: Chan, last: seq<Bytes>, now: seq<Bytes>, was: seq<Bytes>)
    requires HeadFirst(e, d, last, now) && HeadFirst(d, c, now, was)
    ensures HeadFirst(e, c, last, was)
  {
  }

  lemma HeadsFirstTwice(w: Tunnel, u: Tunnel, t: Tunnel)
    requires HeadsFirst(w, u) && HeadsFirst(u, t)
    ensures HeadsFirst(w, t)
  {
    hide HeadFirst, Share;
    forall i: nat | i < |t.chans|
      ensures HeadFirst(w.chans[i], t.chans[i], Share(w.sent, i), Share(t.sent, i))
    {
      HeadFirstTwice(w.chans[i], u.chans[i], t.chans[i], Share(w.sent, i), Share(u.sent, i), Share(t.sent, i));
    }
  }

  /** One channel may have changed, and nothing has been completed. */
  lemma HeadKept(u: Tunnel, t: Tunnel, h: nat)
    requires h < |t.chans| && |u.chans| == |t.chans| && u.chans == t.chans[h := u.chans[h]] && u.sent == t.sent
    requires t.chans[h].q.mem != [] ==> u.chans[h].q.mem != [] && u.chans[h].q.mem[0] == t.chans[h].q.mem[0]
    ensures HeadsFirst(u, t)
  {
    hide Share;
  }

  lemma HeadsSame(u: Tunnel, t: Tunnel)
    requires u.chans == t.chans && u.sent == t.sent
    ensures HeadsFirst(u, t)
  {
    hide Share;
  }

  lemma PeekHead(q: Queue)
    requires q.mem != []
    ensures Peek(q) == q
  {
  }

  lemma PushHead(q: Queue, rec: Bytes, now: nat, flush: nat)
    requires q.mem != []
    ensures Push(q, rec, now, flush).mem != [] && Push(q, rec, now, flush).mem[0] == q.mem[0]
  {
  }

  // ---------- sending ----------

  lemma TookHead(t: Tunnel, n: nat)
    requires Sound(t) && HeadHeld(t)
    ensures HeadsFirst(TookSome(t, n), t)
  {
    hide ChanValid, Offer, Consumed, TookSome, Sound, Good, Share;
    HeldFirst(t);
    FirstChanIs(t);
    TookShape(t, n);
    var h, c, u := t.waiting[0], FirstChan(t), TookSome(t, n);
    if u.sent == t.sent {
      HeadKept(u, t, h);
    } else {
      var x := Sent(h, c.tag, c.q.mem[0]);
      forall i: nat | i < |t.chans|
        ensures HeadFirst(u.chans[i], t.chans[i], Share(u.sent, i), Share(t.sent, i))
      {
        ShareMore(t.sent, x, i);
        assert i != h ==> Share(t.sent, i) + [] == Share(t.sent, i);
      }
    }
  }

  lemma DescribedHead(t: Tunnel)
    requires Sound(t) && t.waiting != []
    ensures HeadsFirst(Described(t), t)
  {
    hide ChanValid, Peek, HeadsFirst, SetFirst, Sound;
    FirstChanIs(t);
    var c := FirstChan(t);
    SetFirstIs(t, Describe(c));
    if c.q.mem != [] { PeekHead(c.q); }
    HeadKept(Described(t), t, t.waiting[0]);
  }

  lemma StopHead(t: Tunnel)
    requires Sound(t) && HeadHeld(t)
    ensures HeadsFirst(Block(t), t) && HeadsFirst(Break(t), t)
  {
    hide ChanValid, Consumed, HeadsFirst, Sound, HeadHeld, Offer, Block, Break;
    HeldFirst(t);
    FirstChanIs(t);
    var c := FirstChan(t);
    OfferSize(c);
    ConsumedEffect(c, 0);
    StopShape(t);
    HeadKept(Block(t), t, t.waiting[0]);
    HeadKept(Break(t), t, t.waiting[0]);
  }

  lemma TurnHead(t: Tunnel, script: seq<Answer>)
    requires Sound(t) && t.waiting != []
    ensures HeadsFirst(LoopTurn(t, script).t, t)
  {
    hide Described, TookSome, Block, Break, Sound, HeadsFirst, HeadHeld;
    DescribedSound(t);
    DescribedHead(t);
    var d := Described(t);
    if !HeadHeld(d) {
      HeadsSame(Skip(d), d);
    } else if script != [] && script[0].Took? {
      TookHead(d, script[0].n);
    } else {
      StopHead(d);
    }
    HeadsFirstTwice(LoopTurn(t, script).t, d, t);
  }

  lemma {:induction false} LoopHead(t: Tunnel, script: seq<Answer>)
    requires Sound(t)
    ensures HeadsFirst(SendLoop(t, script), t)
    decreases |t.waiting|, Pending(t)
  {
    hide Sound, Pending, LoopTurn, HeadsFirst;
    if t.waiting == [] {
      HeadsSame(t, t);
    } else {
      TurnHead(t, script);
      var turn := LoopTurn(t, script);
      if turn.Again? {
        LoopProgress(t, script);
        LoopHead(turn.t, turn.script);
        HeadsFirstTwice(SendLoop(turn.t, turn.script), turn.t, t);
      }
    }
  }

  lemma SendHead(t: Tunnel, script: seq<Answer>)
    requires Sound(t) && t.sock && t.connected
    ensures HeadsFirst(TrySend(t, script), t)
  {
    hide Sound, SendLoop, HeadsFirst;
    LoopHead(t, script);
    HeadsSame(t.(watch := Watching(ALL_EVENTS)), t);
  }

  // ---------- one event ----------

  lemma ReadyHead(t: Tunnel, i: nat, script: seq<Answer>)
    requires Sound(t) && i < |t.chans|
    ensures HeadsFirst(SourceReady(t, i, script), t)
  {
    hide ChanValid, TrySend, HeadsFirst;
    var u := t.(waiting := t.waiting + [i]);
    HeadsSame(u, t);
    HeadsSame(t, t);
    HeadsSame(InitiateLookup(u), t);
    if u.sock && u.connected {
      SendHead(u, script);
      HeadsFirstTwice(TrySend(u, script), u, t);
    }
  }

  lemma WokenHead(t: Tunnel, i: nat, script: seq<Answer>)
    requires Sound(t) && i < |t.chans| && Sound(t.(chans := t.chans[i := t.chans[i].(pending := false)]))
    ensures HeadsFirst(SourceReady(t.(chans := t.chans[i := t.chans[i].(pending := false)]), i, script), t)
  {
    hide Sound, SourceReady, HeadsFirst;
    var c := t.(chans := t.chans[i := t.chans[i].(pending := false)]);
    HeadKept(c, t, i);
    ReadyHead(c, i, script);
    HeadsFirstTwice(SourceReady(c, i, script), c, t);
  }

  lemma NotifiedHead(t: Tunnel, soerr: bool, script: seq<Answer>, conns: seq<ConnAnswer>)
    requires Sound(t) && t.sock && t.addrs != []
    ensures HeadsFirst(DescriptorReady(t, soerr, script, conns), t)
  {
    hide Sound, TrySend, NextAddress, HeadsFirst;
    var r := t.(watch := t.watch.(queued := false));
    SoundLess(t, r);
    if t.connected && !Closing(t.watch.got) {
      var w := r.(writable := true);
      SoundLess(t, w);
      HeadsSame(w, t);
      SendHead(w, script);
      HeadsFirstTwice(TrySend(w, script), w, t);
    } else {
      NextLoss(r, conns);
      HeadsSame(DescriptorReady(t, soerr, script, conns), t);
    }
  }

  lemma StepHead(t: Tunnel, e: Event)
    requires Inv(t) && Enabled(t, e)
    ensures HeadsFirst(Step(t, e), t)
  {
    hide Inv, Sound, SourceReady, DescriptorReady, TryConnect, HeadsFirst, Submit, Activate, ChanValid, Presents, Good;
    InvSound(t);
    match e
    case Submitted(i, clid, payload, now, flush) =>
      SubmitHead(t.chans[i], clid, payload, now, flush);
      HeadKept(Step(t, e), t, i);
    case Activated(i) =>
      ActivateHead(t.chans[i]);
      HeadKept(Step(t, e), t, i);
    case Woken(i, script) =>
      ChanSound(t, i);
      NotPending(t.chans[i]);
      SetChanSound(t, i, t.chans[i].(pending := false));
      WokenHead(t, i, script);
    case Notified(soerr, script, conns) => NotifiedHead(t, soerr, script, conns);
    case LookedUp(addrs, conns) =>
      var r := t.(lookup := false, addrs := addrs, connected := false);
      SoundLess(t, r);
      ConnectLoss(r, conns);
      HeadsSame(Step(t, e), t);
    case _ => HeadsSame(Step(t, e), t);
  }

  lemma SubmitHead(c: Chan, clid: nat, payload: Bytes, now: nat, flush: nat)
    ensures var d := Submit(c, clid, payload, now, flush);
            c.q.mem != [] ==> d.q.mem != [] && d.q.mem[0] == c.q.mem[0]
  {
    hide Push, PushWakes;
    if c.q.mem != [] { PushHead(c.q, Entry(clid, payload), now, flush); }
  }

  lemma ActivateHead(c: Chan)
    ensures c.q.mem != [] ==> Activate(c).q == c.q
  {
    hide Peek;
    if c.q.mem != [] { PeekHead(c.q); }
  }

  // ---------- runs ----------

  /** Over any run, through any number of failures and connections, the head of a channel's queue stays
      at its head until its message has been completed, which is the channel's next to be so. */
  lemma {:induction false} RunHead(t: Tunnel, es: seq<Event>)
    requires Inv(t) && Executes(t, es)
    ensures HeadsFirst(After(t, es), t)
    decreases |es|
  {
    hide Sound, Step, Enabled, ChansOk, QueueOk, Framing, HeadsFirst;
    if es == [] {
      HeadsSame(t, t);
    } else {
      StepInv(t, es[0]);
      StepHead(t, es[0]);
      RunHead(Step(t, es[0]), es[1..]);
      HeadsFirstTwice(After(t, es), Step(t, es[0]), t);
    }
  }

  /** What the present connection has had of a channel's message, it has had from the first byte, after its
      whole messages and nothing else; between connections nothing has been sent of it. */
  ghost predicate FromFirstByte(t: Tunnel, i: nat)
    requires Inv(t) && i < |t.chans| && t.chans[i].held
  {
    && t.waiting != [] && t.waiting[0] == i
    && t.chans[i].q.mem != [] && Good(t.chans[i].q.mem[0])
    && t.chans[i].done <= |Encode(Head(t.chans[i]))|
    && (if t.sock then t.wire == EncodeAll(CurrentFrames(t)) + Encode(Head(t.chans[i]))[..t.chans[i].done]
        else t.chans[i].done == 0)
  }

  lemma CleanStarts(t: Tunnel, i: nat)
    requires Inv(t) && Clean(t) && i < |t.chans| && t.chans[i].held
    ensures FromFirstByte(t, i)
  {
    hide Encode, EncodeAll, Contents, Share, Good, LogOk;
    assert ChanOk(t.chans[i], i, t.waiting, t.sent);
    assert HeadHeld(t);
    if t.sock { FramedExactly(t); }
  }

  /** On an untorn run from any clean state, such as that after a failed send: until the entry at the head of
      a channel's queue has been completed it stays there, and each connection that has any of its
      message has it from the first byte; and it is the next that the channel completes. */
  lemma FailedResends(t: Tunnel, es: seq<Event>, i: nat)
    requires Inv(t) && LinkInv(t) && Clean(t) && Legal(t, es) && Executes(t, es) && NeverTears(t, es)
    requires i < |t.chans| && t.chans[i].q.mem != []
    ensures Inv(After(t, es)) && |After(t, es).chans| == |t.chans|
    ensures var u, x := After(t, es), t.chans[i].q.mem[0];
            if Share(u.sent, i) == Share(t.sent, i) then
              u.chans[i].q.mem != [] && u.chans[i].q.mem[0] == x && (u.chans[i].held ==> FromFirstByte(u, i))
            else Share(t.sent, i) + [x] <= Share(u.sent, i)
  {
    hide Inv, LinkInv, Clean, Legal, Executes, After, NeverTears, FromFirstByte, Share, Sound;
    RunKeeps(t, es);
    RunHead(t, es);
    CleanExactly(t, es);
    CleanAtEnd(t, es);
    var u := After(t, es);
    assert HeadFirst(u.chans[i], t.chans[i], Share(u.sent, i), Share(t.sent, i));
    if u.chans[i].held { CleanStarts(u, i); }
  }

  /** A failed send leaves such a state: the entry is at the head, and nothing has been sent of it. */
  lemma BrokenStarts(t: Tunnel)
    requires Inv(t) && HeadHeld(t) && t.sock && t.lead == []
    ensures var u, h := Break(t), t.waiting[0];
            && Inv(u) && Clean(u) && !u.chans[h].held && u.sent == t.sent
            && u.chans[h].q == t.chans[h].q && u.chans[h].q.mem != []
  {
    hide ChansOk, QueueOk, Framing, Partial, Break, Sound, Valid, Contents;
    HeldFirst(t);
    FirstChanIs(t);
    HeadGood(FirstChan(t));
    BreakInv(t);
    StopShape(t);
  }
}
