// The promises of the tunnel, over every run of its sending end and every way its bytes may be
// received (channels.cc, tcp_ingress.cc and tcp_egress.cc together).
module TunnelTheorems {
  import opened Basics
  import opened Wire
  import opened Egress
  import opened SpillQueue
  import opened Channels
  import opened ChannelFacts
  import opened Tunnel
  import opened TunnelLinks
  import opened TunnelRuns

  // ---------- when a connection carries whole messages ----------

  /** The present connection began at the start of a message, or the next one will. */
  predicate Clean(t: Tunnel)
    requires Sound(t)
  {
    t.lead == [] && (!t.sock ==> Partial(t) == [])
  }

  /** The bytes that the connection has accepted are exactly its messages and a part of the next. */
  ghost predicate Framed(t: Tunnel)
    requires Inv(t)
  {
    t.wire == EncodeAll(CurrentFrames(t)) + Partial(t)
  }

  lemma FramedExactly(t: Tunnel)
    requires Inv(t) && t.sock
    ensures Framed(t) <==> Clean(t)
  {
    hide ChansOk, QueueOk, Sound, Partial, Good;
    var whole := EncodeAll(FramesOf(t.sent[t.mark..])) + Partial(t);
    assert |t.lead + t.wire| == |t.lead| + |t.wire|;
    assert t.lead == [] ==> t.lead + t.wire == t.wire;
  }

  /** The peer closes a connection that has had part of a message: the channel is not told, and
      goes on from there on the next connection. */
  predicate Tears(t: Tunnel, e: Event)
    requires Sound(t)
  {
    e.Notified? && t.connected && Closing(t.watch.got) && Partial(t) != []
  }

  /** From a clean state, an event leads to a clean one if and only if it is not such a closure. */
  lemma StepClean(t: Tunnel, e: Event)
    requires Inv(t) && LinkInv(t) && Enabled(t, e) && Clean(t)
    ensures Inv(Step(t, e))
    ensures Clean(Step(t, e)) <==> !Tears(t, e)
  {
    hide ChansOk, QueueOk, Sound, Partial, SourceReady, DescriptorReady, TryConnect, Submit, Activate, Good,
      ChanValid, LogOk, Presents;
    StepInv(t, e);
    match e
    case Submitted(i, clid, payload, now, flush) => SubmittedInv(t, i, clid, payload, now, flush);
    case Activated(i) => ActivatedInv(t, i);
    case Woken(i, script) =>
      QueuedInv(t, i);
      var c := t.(chans := t.chans[i := t.chans[i].(pending := false)]);
      NotPending(t.chans[i]);
      SetChanSound(t, i, t.chans[i].(pending := false));
      ReadyInv(c, i, c.(waiting := if i in c.waiting then c.waiting else c.waiting + [i]), script);
    case Reported(evs) => LinkChange(t, Step(t, e));
    case Notified(soerr, script, conns) =>
      NotifiedInv(t, soerr, script, conns);
      if !t.connected { NothingSentYet(t); }
    case TimerExpired => LinkChange(t, Step(t, e));
    case TimerNotified => LinkChange(t, Step(t, e));
    case LookedUp(addrs, conns) =>
      var r := t.(lookup := false, addrs := addrs, connected := false);
      LinkChange(t, r);
      ConnectInv(r, conns);
  }

  /** While connecting, nothing has been sent. */
  lemma NothingSentYet(t: Tunnel)
    requires Inv(t) && t.sock && t.lead == [] && t.wire == []
    ensures Partial(t) == []
  {
    hide ChansOk, QueueOk, Sound, Partial, LogOk;
    assert t.lead + t.wire == [];
  }

  // ---------- runs ----------

  /** What callers, scheduler and kernel may bring about, one after another; no source becomes
      ready in the window between the timer's expiry and its handler with nothing waiting. */
  predicate Legal(t: Tunnel, es: seq<Event>)
    decreases |es|
  {
    es == [] ||
    (Sound(t) && Possible(t, es[0]) && !OpensWindow(t, es[0])
     && (Enabled(t, es[0]) ==> Legal(Step(t, es[0]), es[1..])))
  }

  /** What the assertions do not allow for: a connection closed as soon as the peer had accepted it, an
      error and nothing else, and an empty datagram that is to be sent. */
  predicate Troubles(t: Tunnel, e: Event)
    requires Sound(t) && Possible(t, e)
  {
    ClosedEarly(t, e) || ErrorOnly(t, e) || !Presents(t, e)
  }

  predicate Untroubled(t: Tunnel, es: seq<Event>)
    decreases |es|
  {
    es == [] ||
    (Sound(t) && Possible(t, es[0]) && !Troubles(t, es[0])
     && (Enabled(t, es[0]) ==> Untroubled(Step(t, es[0]), es[1..])))
  }

  /** Every handler of the run finds its assertions true. */
  predicate Executes(t: Tunnel, es: seq<Event>)
    decreases |es|
  {
    es == [] || (Sound(t) && Enabled(t, es[0]) && Executes(Step(t, es[0]), es[1..]))
  }

  function After(t: Tunnel, es: seq<Event>): Tunnel
    requires Executes(t, es)
    decreases |es|
  {
    if es == [] then t else After(Step(t, es[0]), es[1..])
  }

  predicate CleanThroughout(t: Tunnel, es: seq<Event>)
    requires Executes(t, es)
    decreases |es|
  {
    Sound(t) && Clean(t) && (es == [] || CleanThroughout(Step(t, es[0]), es[1..]))
  }

  predicate NeverTears(t: Tunnel, es: seq<Event>)
    requires Executes(t, es)
    decreases |es|
  {
    es == [] || (!Tears(t, es[0]) && NeverTears(Step(t, es[0]), es[1..]))
  }

  /** No assertion fails in a legal run exactly when none of its events is one of those, and then the
      invariants hold at the end of it. */
  lemma {:induction false} RunKeeps(t: Tunnel, es: seq<Event>)
    requires Inv(t) && LinkInv(t) && Legal(t, es)
    ensures Executes(t, es) <==> Untroubled(t, es)
    ensures Executes(t, es) ==> Inv(After(t, es)) && LinkInv(After(t, es))
    decreases |es|
  {
    hide Sound, LinkInv, Step, Possible, Asserts, OpensWindow, ChansOk, QueueOk, Framing, Presents, ClosedEarly,
      ErrorOnly;
    if es == [] {
    } else {
      AssertionsHold(t, es[0]);
      if Enabled(t, es[0]) {
        StepInv(t, es[0]);
        StepLink(t, es[0]);
        RunKeeps(Step(t, es[0]), es[1..]);
      }
    }
  }

  /** Every connection of a run carries whole messages, from its first byte, exactly when the peer
      never closes one in the middle of a message. */
  lemma {:induction false} CleanExactly(t: Tunnel, es: seq<Event>)
    requires Inv(t) && LinkInv(t) && Clean(t) && Legal(t, es) && Executes(t, es)
    ensures CleanThroughout(t, es) <==> NeverTears(t, es)
    decreases |es|
  {
    hide Sound, LinkInv, Step, Possible, Asserts, OpensWindow, ChansOk, QueueOk, Framing, Clean, Tears, Presents;
    if es == [] {
    } else {
      StepClean(t, es[0]);
      StepLink(t, es[0]);
      if !Tears(t, es[0]) {
        CleanExactly(Step(t, es[0]), es[1..]);
      } else {
        NotCleanNow(Step(t, es[0]), es[1..]);
      }
    }
  }

  lemma NotCleanNow(t: Tunnel, es: seq<Event>)
    requires Executes(t, es) && Sound(t) && !Clean(t)
    ensures !CleanThroughout(t, es)
  {
    hide Sound, Clean;
  }

  lemma {:induction false} CleanAtEnd(t: Tunnel, es: seq<Event>)
    requires Executes(t, es) && CleanThroughout(t, es)
    ensures Sound(After(t, es)) && Clean(After(t, es))
    decreases |es|
  {
    hide Sound, Clean, Step, Enabled;
    if es == [] {
    } else {
      CleanAtEnd(Step(t, es[0]), es[1..]);
    }
  }

  /** Two courses of events, one after the other. */
  lemma {:induction false} RunsOn(t: Tunnel, a: seq<Event>, b: seq<Event>)
    requires Executes(t, a)
    ensures Executes(t, a + b) <==> Executes(After(t, a), b)
    ensures Executes(t, a + b) ==> After(t, a + b) == After(After(t, a), b)
    ensures Legal(t, a) && Legal(After(t, a), b) ==> Legal(t, a + b)
    decreases |a|
  {
    hide Sound, Step, Asserts, Possible, OpensWindow, Presents;
    if a == [] {
      assert a + b == b;
    } else {
      assert (a + b)[1..] == a[1..] + b;
      RunsOn(Step(t, a[0]), a[1..], b);
    }
  }

  // ---------- end to end ----------

  /** However the bytes of a clean connection are cut up on their way, what the receiving end
      delivers is the messages completed on that connection: all of them once every byte has
      arrived, and the first so many before that. */
  lemma Deliveries(t: Tunnel, chunks: seq<Bytes>)
    requires Inv(t) && t.sock && Clean(t) && Flatten(chunks) <= t.wire
    ensures var got, sent := Receive(Parse([]), chunks), CurrentFrames(t);
            && got.frames <= sent
            && (Flatten(chunks) == t.wire ==> got == Parsed(sent, Partial(t)))
  {
    hide ChansOk, QueueOk, Sound, Encode, EncodeAll, Decode, Good, Receive, Parse, Partial;
    FramedExactly(t);
    LogFits(t.sent[t.mark..]);
    PartialWaits(t);
    DeliverFrames(CurrentFrames(t), Partial(t), chunks);
  }

  /** However a run of messages, and the start of another, is cut up, it is received as it was sent. */
  lemma DeliverFrames(sent: seq<Frame>, partial: Bytes, chunks: seq<Bytes>)
    requires (forall f :: f in sent ==> Fits(f)) && Decode(partial) == None
    requires Flatten(chunks) <= EncodeAll(sent) + partial
    ensures Receive(Parse([]), chunks).frames <= sent
    ensures Flatten(chunks) == EncodeAll(sent) + partial ==> Receive(Parse([]), chunks) == Parsed(sent, partial)
  {
    hide Parse, Encode, Decode, Fits, EncodeAll, Receive;
    var came, wire := Flatten(chunks), EncodeAll(sent) + partial;
    ParseEncodeAll(sent, partial);
    ChunkIndependence([], chunks);
    assert [] + came == came;
    assert wire == came + wire[|came|..];
    ParseSplit(came, wire[|came|..]);
  }

  lemma LogFits(log: seq<Sent>)
    requires LogOk(log)
    ensures forall f :: f in FramesOf(log) ==> Fits(f)
  {
    forall k | 0 <= k < |log| ensures Fits(FrameOf(log[k].tag, log[k].entry)) {
      GoodFits(log[k].tag, log[k].entry);
    }
  }

  lemma PartialWaits(t: Tunnel)
    requires Sound(t)
    ensures Decode(Partial(t)) == None
  {
    hide Good, Encode, Decode;
    if HeadHeld(t) {
      var c := FirstChan(t);
      HeadGood(c);
      GoodFits(c.tag, c.q.mem[0]);
      DecodeNeedsAll(Head(c), c.done);
    } else {
      DecodeNothing();
    }
  }

  lemma DecodeNothing()
    ensures Decode([]) == None
  {
  }

  /** The state in which a tunnel starts: nothing sent, nothing waiting, queues as they were left
      on disc. */
  predicate Initial(t: Tunnel) {
    && t.waiting == [] && !t.sock && !t.connected && !t.writable && !t.watch.on
    && !t.timerSet && !t.timerDue && !t.lookup && t.addrs == []
    && t.sent == [] && t.mark == 0 && t.lead == [] && t.wire == []
    && forall i :: 0 <= i < |t.chans| ==> FreshChan(t.chans[i])
  }

  predicate FreshChan(c: Chan) {
    && c.tag < 65536 && Valid(c.q) && !c.held && !c.pending && !c.live
    && (forall e :: e in Contents(c.q) ==> Good(e))
    && c.submitted == Contents(c.q)
  }

  lemma InitialInv(t: Tunnel)
    requires Initial(t)
    ensures Inv(t) && LinkInv(t) && Clean(t)
  {
    hide Valid, Contents, Good, Encode;
    forall i | 0 <= i < |t.chans| ensures ChanOk(t.chans[i], i, t.waiting, t.sent) {
      assert FreshChan(t.chans[i]);
      SubsequenceRefl(Contents(t.chans[i].q));
      assert [] + Contents(t.chans[i].q) == Contents(t.chans[i].q);
    }
    assert Sound(t);
  }

  /** End to end: in a legal run from the start no assertion fails exactly when no event troubles them;
      after a run without a failure every channel's completed messages, followed by what it still holds,
      are what it was given, in order, less what its queue lost; and if the present connection began
      with no half-sent message, whatever happened to those before it, then the receiving end delivers
      a prefix of the messages completed on it, whatever the chunks, and all of them once every byte
      has arrived. */
  lemma EndToEnd(t: Tunnel, es: seq<Event>, chunks: seq<Bytes>)
    requires Initial(t) && Legal(t, es)
    ensures Executes(t, es) <==> Untroubled(t, es)
    ensures Executes(t, es) ==>
            var u := After(t, es);
            && Inv(u)
            && (forall i :: 0 <= i < |u.chans| ==>
                  Subsequence(Share(u.sent, i) + Contents(u.chans[i].q), u.chans[i].submitted))
            && (u.sock && Clean(u) && Flatten(chunks) <= u.wire ==>
                  && Receive(Parse([]), chunks).frames <= CurrentFrames(u)
                  && (Flatten(chunks) == u.wire ==> Receive(Parse([]), chunks).frames == CurrentFrames(u)))
  {
    hide Initial, LinkInv, Sound, Receive, Parse, LogOk, QueueOk, ChanValid, Contents, Share, Clean, Legal, Executes,
      Untroubled, After;
    InitialInv(t);
    RunKeeps(t, es);
    if Executes(t, es) {
      var u := After(t, es);
      assert forall i :: 0 <= i < |u.chans| ==> ChanOk(u.chans[i], i, u.waiting, u.sent);
      if u.sock && Clean(u) && Flatten(chunks) <= u.wire {
        Deliveries(u, chunks);
      }
    }
  }

  // ---------- consequences ----------

  /** On a clean connection a message is counted as sent, and so its entry leaves the queue, only
      once the connection has accepted every byte of it, together and in order. */
  lemma CompletedWasAccepted(t: Tunnel, k: nat)
    requires Inv(t) && t.sock && Clean(t) && t.mark <= k < |t.sent|
    ensures LogOk(t.sent)
    ensures var f := FrameOf(t.sent[k].tag, t.sent[k].entry);
            var at := |EncodeAll(FramesOf(t.sent[t.mark..k]))|;
            at + |Encode(f)| <= |t.wire| && t.wire[at..at + |Encode(f)|] == Encode(f)
  {
    hide ChansOk, QueueOk, Encode, Sound, Partial, EncodeAll, LogOk;
    FramedExactly(t);
    SplitLog(t.sent, t.mark, k);
    var f := FrameOf(t.sent[k].tag, t.sent[k].entry);
    var before, after := EncodeAll(FramesOf(t.sent[t.mark..k])), EncodeAll(FramesOf(t.sent[k + 1..]));
    Middle(before, Encode(f), after, Partial(t));
  }

  lemma Middle(a: Bytes, b: Bytes, c: Bytes, d: Bytes)
    ensures var all := (a + b + c) + d;
            |a| + |b| <= |all| && all[|a|..|a| + |b|] == b
  {
  }

  lemma SplitLog(log: seq<Sent>, mark: nat, k: nat)
    requires LogOk(log) && mark <= k < |log|
    ensures |log[k].entry| >= CLID_SIZE && LogOk(log[mark..k]) && LogOk(log[k + 1..])
    ensures EncodeAll(FramesOf(log[mark..]))
            == EncodeAll(FramesOf(log[mark..k])) + Encode(FrameOf(log[k].tag, log[k].entry))
               + EncodeAll(FramesOf(log[k + 1..]))
  {
    hide Encode;
    var f := FrameOf(log[k].tag, log[k].entry);
    var before, after := FramesOf(log[mark..k]), FramesOf(log[k + 1..]);
    assert FramesOf(log[mark..]) == before + ([f] + after);
    EncodeAllAppend(before, [f] + after);
    SpellFirst(f, after);
  }

  /** After a failed send the same entry is offered again, from its first byte. */
  lemma FailedStartsAgain(c: Chan)
    requires ChanValid(c) && c.held
    ensures var d := Describe(Failed(c));
            d.held && Head(d) == Head(c) && d.q == c.q && Offer(d) == Encode(Head(c))
    ensures var f := Failed(c);
            !f.held && f.q == c.q && f.pending == c.pending && f.live == c.live && f.submitted == c.submitted
  {
    hide Encode, Contents, Valid;
  }

  /** After a connection is torn, the bytes of the next one are not its messages: here the first
      header went to the old connection, and the payload alone, sent on the new one, is taken for
      another message. */
  lemma TornMisleads(t: Tunnel, f: Frame, g: Frame, chunks: seq<Bytes>)
    requires Inv(t) && t.sock && CurrentFrames(t) == [f] && Partial(t) == []
    requires |t.lead| == HEADER_BYTES && f.payload == Encode(g) && Fits(g)
    requires Flatten(chunks) == t.wire
    ensures Receive(Parse([]), chunks).frames == [g]
    ensures g != f
  {
    hide ChansOk, QueueOk, Sound, Parse, Decode, Partial;
    assert EncodeAll([f]) == Encode(f) + EncodeAll([]) == Encode(f);
    assert t.lead + t.wire == Encode(f);
    assert t.wire == Encode(f)[HEADER_BYTES..] == f.payload;
    ChunkIndependence([], chunks);
    assert [] + t.wire == EncodeAll([g]) + [];
    DecodeNothing();
    ParseEncodeAll([g], []);
    assert |f.payload| == HEADER_BYTES + |g.payload|;
  }
}
