// Exactly when a run of the sending end loses nothing (channels.cc and tcp_ingress.cc over
// queues.cc).
module TunnelLosses {
  import opened Basics
  import opened Wire
  import opened SpillQueue
  import QueueRuns
  import opened Channels
  import opened ChannelFacts
  import opened Tunnel
  import opened TunnelLinks
  import opened TunnelRuns
  import opened TunnelTheorems

  // ---------- what each event asks of the queues ----------

  predicate DescribeKeeps(c: Chan) {
    c.held || QueueRuns.PeekKeeps(c.q)
  }

  /** Completing a message looks at what comes next. */
  predicate TakeKeeps(c: Chan, n: nat)
    requires ChanValid(c) && c.held
  {
    Clip(n, |Offer(c)|) < |Offer(c)| || QueueRuns.PeekKeeps(Consume(c.q))
  }

  predicate TurnKeeps(t: Tunnel, script: seq<Answer>)
    requires Sound(t) && t.waiting != []
  {
    DescribedSound(t);
    var d := Described(t);
    && DescribeKeeps(FirstChan(t))
    && (HeadHeld(d) && script != [] && script[0].Took? ==> TakeKeeps(FirstChan(d), script[0].n))
  }

  predicate LoopKeeps(t: Tunnel, script: seq<Answer>)
    requires Sound(t)
    decreases |t.waiting|, Pending(t)
  {
    t.waiting == [] ||
    (TurnKeeps(t, script)
     && match LoopTurn(t, script)
        case Stop(_) => true
        case Again(u, rest) =>
          LoopProgress(t, script);
          LoopKeeps(u, rest))
  }

  predicate SendKeeps(t: Tunnel, script: seq<Answer>)
    requires Sound(t)
  {
    t.writable ==> LoopKeeps(t, script)
  }

  predicate EventKeeps(t: Tunnel, e: Event)
    requires Sound(t) && Enabled(t, e)
  {
    match e
    case Submitted(i, clid, payload, _, _) => QueueRuns.PushKeeps(t.chans[i].q, Entry(clid, payload))
    case Activated(i) => QueueRuns.PeekKeeps(t.chans[i].q)
    case Woken(i, script) =>
      SetChanSound(t, i, t.chans[i].(pending := false));
      (t.waiting == [] && t.sock && t.connected ==>
         SendKeeps(t.(chans := t.chans[i := t.chans[i].(pending := false)], waiting := [i]), script))
    case Notified(_, script, _) =>
      (t.connected && !Closing(t.watch.got) ==>
         SendKeeps(t.(watch := t.watch.(queued := false), writable := true), script))
    case _ => true
  }

  // ---------- what is accounted for ----------

  /** Everything of a channel that is accounted for: its completed messages and its queue. */
  function Held(t: Tunnel, i: nat): seq<Bytes>
    requires i < |t.chans|
  {
    Share(t.sent, i) + Contents(t.chans[i].q)
  }

  ghost predicate Fewer(u: Tunnel, t: Tunnel) {
    |u.chans| == |t.chans| && forall i :: 0 <= i < |t.chans| ==>
      u.chans[i].submitted == t.chans[i].submitted && Subsequence(Held(u, i), Held(t, i))
  }

  predicate Same(u: Tunnel, t: Tunnel) {
    |u.chans| == |t.chans| && forall i :: 0 <= i < |t.chans| ==> Held(u, i) == Held(t, i)
  }

  lemma FewerTwice(w: Tunnel, u: Tunnel, t: Tunnel)
    requires Fewer(w, u) && Fewer(u, t)
    ensures Fewer(w, t) && (Same(w, t) <==> Same(w, u) && Same(u, t))
  {
    hide Held;
    forall i | 0 <= i < |t.chans|
      ensures Subsequence(Held(w, i), Held(t, i))
      ensures Held(w, i) == Held(t, i) <==> Held(w, i) == Held(u, i) && Held(u, i) == Held(t, i)
    {
      SubsequenceTrans(Held(w, i), Held(u, i), Held(t, i));
      SubsequenceSize(Held(w, i), Held(u, i));
      SubsequenceSize(Held(u, i), Held(t, i));
    }
  }

  lemma SameHeld(u: Tunnel, t: Tunnel)
    requires |u.chans| == |t.chans| && u.sent == t.sent
    requires forall i :: 0 <= i < |t.chans| ==>
      u.chans[i].submitted == t.chans[i].submitted && Contents(u.chans[i].q) == Contents(t.chans[i].q)
    ensures Fewer(u, t) && Same(u, t)
  {
    hide Contents, Share;
    forall i | 0 <= i < |t.chans| ensures Held(u, i) == Held(t, i) && Subsequence(Held(u, i), Held(t, i)) {
      SubsequenceRefl(Held(t, i));
    }
  }

  /** One channel's queue changes, and perhaps one of its messages is completed. */
  lemma OneHeld(u: Tunnel, t: Tunnel, h: nat)
    requires h < |t.chans| && |u.chans| == |t.chans| && u.chans == t.chans[h := u.chans[h]]
    requires u.sent == t.sent || exists x :: u.sent == t.sent + [x] && x.chan == h
    requires u.chans[h].submitted == t.chans[h].submitted && Subsequence(Held(u, h), Held(t, h))
    ensures Fewer(u, t) && (Same(u, t) <==> Held(u, h) == Held(t, h))
  {
    hide Contents, Share;
    forall i | 0 <= i < |t.chans| && i != h
      ensures Held(u, i) == Held(t, i) && Subsequence(Held(u, i), Held(t, i))
    {
      SubsequenceRefl(Held(t, i));
      if u.sent != t.sent {
        var x :| u.sent == t.sent + [x] && x.chan == h;
        ShareMore(t.sent, x, i);
        assert Share(u.sent, i) == Share(t.sent, i) + [] == Share(t.sent, i);
      }
    }
  }

  lemma DescribedHeld(t: Tunnel)
    requires Inv(t) && t.waiting != []
    ensures Fewer(Described(t), t) && (Same(Described(t), t) <==> DescribeKeeps(FirstChan(t)))
  {
    hide ChanValid, Contents, Share, Describe, Framing, ChansOk;
    var h := t.waiting[0];
    var c := t.chans[h];
    DescribeEffect(c);
    var share, now, was := Share(t.sent, h), Contents(Describe(c).q), Contents(c.q);
    SubsequencePrefix(share, now, was);
    CancelFront(share, now, was);
    OneHeld(Described(t), t, h);
  }

  lemma CancelFront(front: seq<Bytes>, a: seq<Bytes>, b: seq<Bytes>)
    ensures front + a == front + b <==> a == b
  {
    assert (front + a)[|front|..] == a && (front + b)[|front|..] == b;
  }

  lemma TookHeld(t: Tunnel, n: nat)
    requires Inv(t) && HeadHeld(t)
    ensures Fewer(TookSome(t, n), t) && (Same(TookSome(t, n), t) <==> TakeKeeps(FirstChan(t), n))
  {
    hide ChanValid, Contents, Share, Consumed, Offer, Good, Framing, TookSome, ChansOk;
    var h, u := t.waiting[0], TookSome(t, n);
    var c := t.chans[h];
    TookShape(t, n);
    var k := Clip(n, |Offer(c)|);
    var d := Consumed(c, k);
    ConsumedEffect(c, k);
    SubsequenceRefl(Held(t, h));
    if d.held {
      OneHeld(u, t, h);
    } else {
      var x := Sent(h, c.tag, c.q.mem[0]);
      ShareMore(t.sent, x, h);
      var share, now, was := Share(t.sent, h), [x.entry] + Contents(d.q), Contents(c.q);
      assert u.sent == t.sent + [x];
      assert Held(u, h) == share + now;
      SubsequencePrefix(share, now, was);
      CancelFront(share, now, was);
      OneHeld(u, t, h);
    }
  }

  lemma TurnHeld(t: Tunnel, script: seq<Answer>)
    requires Inv(t) && t.sock && t.waiting != []
    ensures var u := LoopTurn(t, script).t;
            Fewer(u, t) && (Same(u, t) <==> TurnKeeps(t, script))
  {
    hide Inv, TookSome, Described, HeadHeld, DescribeKeeps, TakeKeeps, Block, Break, Fewer, Same;
    InvSound(t);
    DescribedInv(t);
    DescribedHeld(t);
    var d, u := Described(t), LoopTurn(t, script).t;
    InvSound(d);
    if !HeadHeld(d) {
      SameHeld(Skip(d), d);
    } else if script == [] || script[0] == Blocked {
      StopSame(d);
    } else if script[0] == Broken {
      StopSame(d);
    } else {
      TookHeld(d, script[0].n);
    }
    FewerTwice(u, d, t);
  }

  lemma StopSame(t: Tunnel)
    requires Sound(t) && HeadHeld(t)
    ensures Fewer(Block(t), t) && Same(Block(t), t) && Fewer(Break(t), t) && Same(Break(t), t)
  {
    hide ChanValid, Contents, Consumed, Fewer, Same;
    OfferSize(FirstChan(t));
    ConsumedEffect(FirstChan(t), 0);
    SameHeld(Block(t), t);
    SameHeld(Break(t), t);
  }

  lemma {:induction false} LoopHeld(t: Tunnel, script: seq<Answer>)
    requires Inv(t) && t.sock
    ensures Fewer(SendLoop(t, script), t) && (Same(SendLoop(t, script), t) <==> LoopKeeps(t, script))
    decreases |t.waiting|, Pending(t)
  {
    hide ChansOk, QueueOk, Sound, Framing, LoopTurn, Pending, TurnKeeps, Fewer, Same;
    if t.waiting == [] {
      SameHeld(t, t);
    } else {
      TurnInv(t, script);
      TurnHeld(t, script);
      var turn := LoopTurn(t, script);
      if turn.Again? {
        LoopProgress(t, script);
        LoopHeld(turn.t, turn.script);
        FewerTwice(SendLoop(turn.t, turn.script), turn.t, t);
      }
    }
  }

  // ---------- runs ----------

  /** Nothing that was ever submitted has been lost. */
  predicate Intact(t: Tunnel) {
    forall i :: 0 <= i < |t.chans| ==> Held(t, i) == t.chans[i].submitted
  }

  lemma FewerIntact(u: Tunnel, t: Tunnel)
    requires Inv(t) && Fewer(u, t)
    ensures Intact(u) <==> Intact(t) && Same(u, t)
  {
    hide ChanValid, Held, QueueOk, Framing;
    forall i | 0 <= i < |t.chans|
      ensures Held(u, i) == u.chans[i].submitted <==> Held(t, i) == t.chans[i].submitted && Held(u, i) == Held(t, i)
    {
      assert ChanOk(t.chans[i], i, t.waiting, t.sent);
      HeldWithin(t, i);
      SubsequenceSize(Held(u, i), Held(t, i));
      SubsequenceSize(Held(t, i), t.chans[i].submitted);
    }
  }

  lemma HeldWithin(t: Tunnel, i: nat)
    requires i < |t.chans| && ChanOk(t.chans[i], i, t.waiting, t.sent)
    ensures Subsequence(Held(t, i), t.chans[i].submitted)
  {
  }

  lemma SubmitLoss(t: Tunnel, i: nat, clid: nat, payload: Bytes, now: nat, flush: nat)
    requires Inv(t) && Possible(t, Submitted(i, clid, payload, now, flush))
    ensures var e := Submitted(i, clid, payload, now, flush);
            Intact(Step(t, e)) <==> Intact(t) && EventKeeps(t, e)
  {
    hide ChanValid, Contents, Share, Submit, Good, QueueOk, Framing, Entry;
    var c, entry := t.chans[i], Entry(clid, payload);
    var d := Submit(c, clid, payload, now, flush);
    assert ChanOk(c, i, t.waiting, t.sent);
    SubmitEffect(c, clid, payload, now, flush);
    var u := t.(chans := t.chans[i := d]);
    HeldWithin(t, i);
    SubsequenceSize(Held(t, i), c.submitted);
    var keeps := QueueRuns.PushKeeps(c.q, entry);
    assert Held(u, i) == Held(t, i) + if keeps then [entry] else [];
    assert |Held(u, i)| == |Held(t, i)| + if keeps then 1 else 0;
    assert forall j :: 0 <= j < |t.chans| && j != i ==> Held(u, j) == Held(t, j);
    assert Held(t, i) == (Held(t, i) + [entry])[..|Held(t, i)|];
    assert c.submitted == (c.submitted + [entry])[..|c.submitted|];
    assert Intact(t) ==> Held(t, i) == c.submitted;
    assert Intact(u) ==> Held(u, i) == c.submitted + [entry];
    assert u.chans[i].submitted == c.submitted + [entry];
    assert forall j :: 0 <= j < |t.chans| && j != i ==> u.chans[j] == t.chans[j];
    if Intact(u) {
      forall j | 0 <= j < |t.chans| ensures Held(t, j) == t.chans[j].submitted {
        assert Held(u, j) == u.chans[j].submitted;
      }
    }
  }

  lemma ActivateLoss(t: Tunnel, i: nat)
    requires Inv(t) && i < |t.chans|
    ensures Intact(Step(t, Activated(i))) <==> Intact(t) && EventKeeps(t, Activated(i))
  {
    hide ChanValid, Contents, Share, Poke, QueueOk, Framing, Intact;
    var c := t.chans[i];
    var u := t.(chans := t.chans[i := Activate(c)]);
    assert ChanOk(c, i, t.waiting, t.sent);
    PokeEffect(c);
    var share, now, was := Share(t.sent, i), Contents(Poke(c).q), Contents(c.q);
    SubsequencePrefix(share, now, was);
    CancelFront(share, now, was);
    OneHeld(u, t, i);
    FewerIntact(u, t);
  }

  lemma SendLoss(t: Tunnel, script: seq<Answer>)
    requires Inv(t) && t.sock && t.connected
    ensures Fewer(TrySend(t, script), t) && (Same(TrySend(t, script), t) <==> SendKeeps(t, script))
  {
    hide Inv, Sound, SendLoop, LoopKeeps;
    SameHeld(t.(watch := Watching(ALL_EVENTS)), t);
    LoopHeld(t, script);
  }

  lemma ReadyLoss(c: Tunnel, i: nat, u: Tunnel, script: seq<Answer>)
    requires Sound(c) && i < |c.chans| && Inv(u)
    requires u == if i in c.waiting then c else c.(waiting := c.waiting + [i])
    ensures var r := SourceReady(c, i, script);
            Fewer(r, c) && (Same(r, c) <==>
              (c.waiting == [] && c.sock && c.connected ==> SendKeeps(u, script)))
  {
    hide Inv, Sound, TrySend, SendKeeps, Fewer, Same;
    InvSound(u);
    SameHeld(u, c);
    SameHeld(InitiateLookup(u), c);
    if u.sock && u.connected {
      SendLoss(u, script);
      FewerTwice(TrySend(u, script), u, c);
    }
  }

  lemma ConnectLoss(t: Tunnel, conns: seq<ConnAnswer>)
    requires Sound(t) && !t.sock
    ensures var u := TryConnect(t, conns); u.chans == t.chans && u.sent == t.sent
  {
    hide Sound, Connect, Opened;
    match Connect(t.ipv4, t.ipv6, t.addrs, conns)
    case Exhausted =>
    case Connecting(_) => OpenedFrame(t, {EvOut, EvHup});
    case Connected(_) => OpenedFrame(t, ALL_EVENTS);
  }

  lemma SameParts(u: Tunnel, t: Tunnel)
    requires u.chans == t.chans && u.sent == t.sent
    ensures Fewer(u, t) && Same(u, t)
  {
    SameHeld(u, t);
  }

  lemma NotifiedLoss(t: Tunnel, soerr: bool, script: seq<Answer>, conns: seq<ConnAnswer>)
    requires Inv(t) && t.sock && t.addrs != []
    ensures var u := DescriptorReady(t, soerr, script, conns);
            Fewer(u, t) && (Same(u, t) <==>
              (t.connected && !Closing(t.watch.got) ==>
                 SendKeeps(t.(watch := t.watch.(queued := false), writable := true), script)))
  {
    hide Inv, Sound, TrySend, NextAddress, SendKeeps, Fewer, Same;
    InvSound(t);
    var r := t.(watch := t.watch.(queued := false));
    if t.connected && !Closing(t.watch.got) {
      var w := r.(writable := true);
      LinkChange(t, w);
      InvSound(w);
      SameParts(w, t);
      SendLoss(w, script);
      FewerTwice(TrySend(w, script), w, t);
    } else {
      LinkChange(t, r);
      InvSound(r);
      NextLoss(r, conns);
      SameParts(DescriptorReady(t, soerr, script, conns), t);
    }
  }

  lemma NextLoss(t: Tunnel, conns: seq<ConnAnswer>)
    requires Sound(t) && t.addrs != []
    ensures var u := NextAddress(t, conns); u.chans == t.chans && u.sent == t.sent
  {
    hide Sound, TryConnect;
    var c := ClearSocket(t.(addrs := t.addrs[1..]));
    SoundLess(t, c);
    ConnectLoss(c, conns);
  }

  /** An event leaves everything accounted for if and only if it was, and every queue operation
      that the event performs keeps its records. */
  lemma StepLoss(t: Tunnel, e: Event)
    requires Inv(t) && Enabled(t, e)
    ensures Intact(Step(t, e)) <==> Intact(t) && EventKeeps(t, e)
  {
    hide Inv, Sound, SourceReady, DescriptorReady, TryConnect, SendKeeps, Fewer, Same, Intact, Good, Submit, ChanValid;
    InvSound(t);
    match e
    case Submitted(i, clid, payload, now, flush) => SubmitLoss(t, i, clid, payload, now, flush);
    case Activated(i) => ActivateLoss(t, i);
    case Woken(i, script) =>
      ChanSound(t, i);
      NotPending(t.chans[i]);
      SetChanSound(t, i, t.chans[i].(pending := false));
      WokenLoss(t, i, t.(chans := t.chans[i := t.chans[i].(pending := false)]), script);
      assert [] + [i] == [i];
    case Notified(soerr, script, conns) =>
      NotifiedLoss(t, soerr, script, conns);
      FewerIntact(Step(t, e), t);
    case LookedUp(addrs, conns) =>
      var r := t.(lookup := false, addrs := addrs, connected := false);
      SoundLess(t, r);
      ConnectLoss(r, conns);
      SameParts(Step(t, e), t);
      FewerIntact(Step(t, e), t);
    case _ =>
      SameParts(Step(t, e), t);
      FewerIntact(Step(t, e), t);
  }

  lemma WokenLoss(t: Tunnel, i: nat, c: Tunnel, script: seq<Answer>)
    requires Inv(t) && i < |t.chans| && Sound(c)
    requires c == t.(chans := t.chans[i := t.chans[i].(pending := false)])
    ensures var u, r := c.(waiting := if i in c.waiting then c.waiting else c.waiting + [i]), SourceReady(c, i, script);
            && Sound(u)
            && (Intact(r) <==> Intact(t) && (c.waiting == [] && c.sock && c.connected ==> SendKeeps(u, script)))
  {
    hide Inv, Sound, SourceReady, SendKeeps, Fewer, Same, Intact, ChanValid, Contents;
    QueuedInv(t, i);
    var u := c.(waiting := if i in c.waiting then c.waiting else c.waiting + [i]);
    InvSound(u);
    ReadyLoss(c, i, u, script);
    SameHeld(c, t);
    FewerTwice(SourceReady(c, i, script), c, t);
    FewerIntact(SourceReady(c, i, script), t);
  }

  lemma ChanSound(t: Tunnel, i: nat)
    requires Sound(t) && i < |t.chans|
    ensures ChanValid(t.chans[i])
  {
    hide ChanValid;
  }

  predicate KeepsThroughout(t: Tunnel, es: seq<Event>)
    requires Executes(t, es)
    decreases |es|
  {
    es == [] || (EventKeeps(t, es[0]) && KeepsThroughout(Step(t, es[0]), es[1..]))
  }

  /** At the end of a run, each channel's completed messages, followed by its queue, are exactly
      what it was given, in order, if and only if no queue operation of the run lost a record. */
  lemma {:induction false} NothingLostExactly(t: Tunnel, es: seq<Event>)
    requires Inv(t) && Executes(t, es)
    ensures Intact(After(t, es)) <==> Intact(t) && KeepsThroughout(t, es)
    decreases |es|
  {
    hide Sound, Step, Enabled, ChansOk, QueueOk, Framing, Intact, EventKeeps;
    if es == [] {
    } else {
      StepInv(t, es[0]);
      StepLoss(t, es[0]);
      NothingLostExactly(Step(t, es[0]), es[1..]);
    }
  }

  /** In particular, from the start of a tunnel, no loss means that each channel's completed
      messages are a prefix of what it was given. */
  lemma ShareIsPrefix(t: Tunnel, es: seq<Event>)
    requires Initial(t) && Executes(t, es) && KeepsThroughout(t, es)
    ensures forall i :: 0 <= i < |After(t, es).chans| ==>
              Share(After(t, es).sent, i) <= After(t, es).chans[i].submitted
  {
    hide Sound, LinkInv, Clean, Contents, Share, Inv;
    InitialInv(t);
    assert Intact(t) by { InitialIntact(t); }
    NothingLostExactly(t, es);
    var u := After(t, es);
    forall i | 0 <= i < |u.chans| ensures Share(u.sent, i) <= u.chans[i].submitted {
      assert Held(u, i) == u.chans[i].submitted;
    }
  }

  lemma InitialIntact(t: Tunnel)
    requires Initial(t)
    ensures Intact(t)
  {
    hide Contents, Valid;
    forall i | 0 <= i < |t.chans| ensures Held(t, i) == t.chans[i].submitted {
      assert FreshChan(t.chans[i]);
      assert [] + Contents(t.chans[i].q) == Contents(t.chans[i].q);
    }
  }
}
