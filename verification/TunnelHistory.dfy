// All the connections of a run together (tcp_ingress.cc and tcp_egress.cc): every completed message is
// delivered, once.
module TunnelHistory {
  import opened Basics
  import opened Wire
  import opened Egress
  import opened Channels
  import opened Tunnel
  import opened TunnelLinks
  import opened TunnelRuns
  import opened TunnelTheorems
  import TunnelFairness

  /** The bytes of the latest connection, open or closed, hold exactly the messages completed on it,
      and nothing that would be taken for another. */
  ghost predicate Heard(t: Tunnel)
    requires Inv(t)
  {
    Parse(t.wire).frames == CurrentFrames(t)
  }

  lemma OpenHeard(t: Tunnel)
    requires Inv(t) && t.sock && t.lead == []
    ensures Heard(t)
  {
    hide ChansOk, QueueOk, Sound, EncodeAll, Decode, Parse, Partial, Good;
    FramedExactly(t);
    LogFits(t.sent[t.mark..]);
    PartialWaits(t);
    ParseEncodeAll(CurrentFrames(t), Partial(t));
  }

  lemma SameHeard(t: Tunnel, u: Tunnel)
    requires Inv(t) && Inv(u) && u.wire == t.wire && u.sent == t.sent && u.mark == t.mark
    ensures Heard(u) <==> Heard(t)
  {
    hide ChansOk, QueueOk, Sound, Parse;
  }

  /** The turn that ends the loop sends nothing. */
  lemma StopSends(t: Tunnel, script: seq<Answer>)
    requires Sound(t) && t.waiting != [] && LoopTurn(t, script).Stop?
    ensures var u := LoopTurn(t, script).t; u.wire == t.wire && u.sent == t.sent
  {
    hide Sound, Described, HeadHeld, Block, Break, TookSome, Skip;
    DescribedSound(t);
    var d := Described(t);
    StillWire(t);
    StillWire(d);
  }

  lemma StillWire(t: Tunnel)
    requires Sound(t) && t.waiting != []
    ensures Described(t).wire == t.wire && Described(t).sent == t.sent
    ensures HeadHeld(t) ==> Block(t).wire == t.wire && Block(t).sent == t.sent
    ensures HeadHeld(t) ==> Break(t).wire == t.wire && Break(t).sent == t.sent
  {
    hide Sound, ChanValid, Describe, Consumed, SetFirst, Offer, HeadHeld;
    SetFirstWire(t, Describe(FirstChan(t)));
    if HeadHeld(t) {
      HeldFirst(t);
      SetFirstWire(t, Consumed(FirstChan(t), 0));
      SetFirstWire(t, Failed(FirstChan(t)));
    }
  }

  lemma SetFirstWire(t: Tunnel, c: Chan)
    requires Sound(t) && t.waiting != []
    ensures SetFirst(t, c).wire == t.wire && SetFirst(t, c).sent == t.sent
  {
    hide ChanValid;
  }

  lemma {:induction false} LoopHeard(t: Tunnel, script: seq<Answer>)
    requires Inv(t) && t.sock && t.lead == []
    ensures Inv(SendLoop(t, script)) && Heard(SendLoop(t, script))
    decreases |t.waiting|, Pending(t)
  {
    hide ChansOk, QueueOk, Sound, Framing, Pending, LoopTurn, Heard;
    if t.waiting == [] {
      OpenHeard(t);
    } else {
      TurnInv(t, script);
      match LoopTurn(t, script)
      case Stop(u) =>
        StopSends(t, script);
        OpenHeard(t);
        SameHeard(t, u);
      case Again(u, rest) =>
        LoopProgress(t, script);
        LoopHeard(u, rest);
    }
  }

  lemma SendHeard(t: Tunnel, script: seq<Answer>)
    requires Inv(t) && t.sock && t.connected && t.lead == []
    ensures var u := TrySend(t, script);
            Inv(u) && Heard(u) && u.mark == t.mark && t.sent <= u.sent
  {
    hide ChansOk, QueueOk, Sound, Framing, SendLoop, Heard;
    TrySendInv(t, script);
    OpenHeard(t);
    SameHeardHere(t, t.(watch := Watching(ALL_EVENTS)));
    LoopHeard(t, script);
    LoopInv(t, script);
    TunnelFairness.LoopServes(t, script);
  }

  lemma SameHeardHere(t: Tunnel, u: Tunnel)
    requires Inv(t) && u.chans == t.chans && u.waiting == t.waiting && u.sent == t.sent
    requires u.mark == t.mark && u.lead == t.lead && u.wire == t.wire && (u.sock ==> t.sock)
    ensures Inv(u) && (Heard(u) <==> Heard(t))
  {
    hide ChansOk, QueueOk, Sound, Framing, Parse;
    LinkChange(t, u);
  }

  // ---------- one event ----------

  /** A new connection begins. */
  predicate Reopens(t: Tunnel, e: Event)
    requires Sound(t) && Enabled(t, e)
  {
    (e.LookedUp? || (e.Notified? && !t.connected && (Closing(t.watch.got) || e.soerr))) && Step(t, e).sock
  }

  /** What is on record of the connection after an event: more of the same one, or a new one. */
  ghost predicate Recorded(t: Tunnel, u: Tunnel, reopens: bool) {
    if reopens then u.sent == t.sent && u.mark == |t.sent|
    else u.mark == t.mark && t.sent <= u.sent
  }

  lemma StepHeard(t: Tunnel, e: Event)
    requires Inv(t) && LinkInv(t) && Enabled(t, e) && Clean(t) && Heard(t) && !Tears(t, e)
    ensures Inv(Step(t, e)) && Heard(Step(t, e)) && Recorded(t, Step(t, e), Reopens(t, e))
  {
    hide ChansOk, QueueOk, Sound, Framing, Partial, SourceReady, DescriptorReady, TryConnect, Submit, Activate, Good,
      ChanValid, Heard;
    StepInv(t, e);
    var u := Step(t, e);
    match e
    case Submitted(i, clid, payload, now, flush) => SameHeard(t, u);
    case Activated(i) => SameHeard(t, u);
    case Woken(i, script) =>
      NotPending(t.chans[i]);
      SetChanSound(t, i, t.chans[i].(pending := false));
      QueuedInv(t, i);
      var c := t.(chans := t.chans[i := t.chans[i].(pending := false)]);
      ReadyHeard(t, c, i, c.(waiting := if i in c.waiting then c.waiting else c.waiting + [i]), script);
    case Reported(evs) => SameHeard(t, u);
    case Notified(soerr, script, conns) => NotifiedHeard(t, soerr, script, conns);
    case TimerExpired => SameHeard(t, u);
    case TimerNotified => SameHeard(t, u);
    case LookedUp(addrs, conns) =>
      var r := t.(lookup := false, addrs := addrs, connected := false);
      SameHeardHere(t, r);
      LinkChange(t, r);
      ConnectHeard(r, conns);
  }

  lemma ReadyHeard(t: Tunnel, c: Tunnel, i: nat, u: Tunnel, script: seq<Answer>)
    requires Sound(c) && i < |c.chans| && Inv(t) && Inv(u) && Heard(t) && (t.sock ==> t.lead == [])
    requires c == t.(chans := c.chans) && u == if i in c.waiting then c else c.(waiting := c.waiting + [i])
    requires Inv(SourceReady(c, i, script))
    ensures var r := SourceReady(c, i, script);
            Heard(r) && r.mark == t.mark && t.sent <= r.sent
  {
    hide Inv, Sound, TrySend, Heard;
    SameHeard(t, u);
    if u.sock && u.connected {
      SendHeard(u, script);
    }
    var r := SourceReady(c, i, script);
    if r.wire == t.wire && r.sent == t.sent && r.mark == t.mark { SameHeard(t, r); }
  }

  lemma ConnectHeard(t: Tunnel, conns: seq<ConnAnswer>)
    requires Inv(t) && !t.sock && Heard(t) && Partial(t) == []
    ensures var u := TryConnect(t, conns);
            Inv(u) && Heard(u) && Recorded(t, u, u.sock)
  {
    hide ChansOk, QueueOk, Sound, Framing, Partial, Connect, Heard, Opened;
    ConnectInv(t, conns);
    match Connect(t.ipv4, t.ipv6, t.addrs, conns)
    case Exhausted => SameHeardHere(t, TryConnect(t, conns));
    case Connecting(_) =>
      OpenedHeard(t, {EvOut, EvHup});
      SameHeardHere(Opened(t, {EvOut, EvHup}), TryConnect(t, conns));
    case Connected(_) =>
      OpenedHeard(t, ALL_EVENTS);
      SameHeardHere(Opened(t, ALL_EVENTS), TryConnect(t, conns));
  }

  lemma OpenedHeard(t: Tunnel, evs: set<Ev>)
    requires Inv(t) && Partial(t) == []
    ensures var u := Opened(t, evs);
            Inv(u) && Heard(u) && u.sent == t.sent && u.mark == |t.sent| && u.sock
  {
    hide ChansOk, QueueOk, Sound, Framing, Partial, Heard;
    OpenedInv(t, evs);
    OpenHeard(Opened(t, evs));
  }

  lemma NotifiedHeard(t: Tunnel, soerr: bool, script: seq<Answer>, conns: seq<ConnAnswer>)
    requires Inv(t) && LinkInv(t) && t.sock && Clean(t) && Heard(t) && t.addrs != []
    requires !(t.connected && Closing(t.watch.got) && Partial(t) != [])
    ensures var u := DescriptorReady(t, soerr, script, conns);
            && Inv(u) && Heard(u)
            && Recorded(t, u, u.sock && !t.connected && (Closing(t.watch.got) || soerr))
  {
    hide ChansOk, QueueOk, Sound, Framing, Partial, TrySend, TryConnect, Heard;
    NotifiedInv(t, soerr, script, conns);
    var r := t.(watch := t.watch.(queued := false));
    SameHeardHere(t, r);
    LinkChange(t, r);
    if !t.connected {
      NothingSentYet(t);
      var c := ClearSocket(r.(addrs := r.addrs[1..]));
      SameHeardHere(r, c);
      LinkChange(r, c);
      ConnectHeard(c, conns);
      SameHeardHere(r, r.(connected := true, watch := Watching(ALL_EVENTS)));
    } else if Closing(t.watch.got) {
      SameHeardHere(r, ClearSocket(r).(timerSet := true));
    } else {
      SameHeardHere(r, r.(writable := true));
      SendHeard(r.(writable := true), script);
    }
  }

  // ---------- runs ----------

  /** The bytes of each connection that was replaced during a run, in order. */
  function PastWires(t: Tunnel, es: seq<Event>): seq<Bytes>
    requires Executes(t, es)
    decreases |es|
  {
    if es == [] then []
    else (if Reopens(t, es[0]) then [t.wire] else []) + PastWires(Step(t, es[0]), es[1..])
  }

  /** The bytes of every connection of a run, the latest included. */
  function AllWires(t: Tunnel, es: seq<Event>): seq<Bytes>
    requires Executes(t, es)
  {
    PastWires(t, es) + [After(t, es).wire]
  }

  /** The messages in the bytes of several connections, each parsed on its own. */
  function HeardOn(wires: seq<Bytes>): seq<Frame> {
    if wires == [] then [] else Parse(wires[0]).frames + HeardOn(wires[1..])
  }

  lemma {:induction false} HeardOnMore(a: seq<Bytes>, b: seq<Bytes>)
    ensures HeardOn(a + b) == HeardOn(a) + HeardOn(b)
  {
    hide Parse;
    if a == [] {
      assert a + b == b;
    } else {
      assert (a + b)[1..] == a[1..] + b;
      HeardOnMore(a[1..], b);
    }
  }

  /** Going on from a state in which the earlier connections carried everything up to the mark. */
  lemma {:induction false} RunHeard(t: Tunnel, es: seq<Event>, past: seq<Bytes>)
    requires Inv(t) && LinkInv(t) && Clean(t) && Heard(t)
    requires Legal(t, es) && Executes(t, es) && NeverTears(t, es)
    requires HeardOn(past) == FramesOf(t.sent[..t.mark])
    ensures Inv(After(t, es)) && HeardOn(past + AllWires(t, es)) == FramesOf(After(t, es).sent)
    decreases |es|
  {
    hide Sound, LinkInv, Step, Possible, Asserts, OpensWindow, ChansOk, QueueOk, Clean, Tears, Heard, Reopens, HeardOn,
      FramesOf, Enabled;
    if es == [] {
      LastHeard(t, past);
      assert AllWires(t, es) == [] + [t.wire] == [t.wire];
    } else {
      hide AllWires;
      var e, u := es[0], Step(t, es[0]);
      AssertionsHold(t, e);
      StepClean(t, e);
      StepLink(t, e);
      StepHeard(t, e);
      var more := if Reopens(t, e) then [t.wire] else [];
      if Reopens(t, e) { LastHeard(t, past); } else { assert past + [] == past; }
      MarkHeard(t, u, Reopens(t, e));
      RunHeard(u, es[1..], past + more);
      WiresNext(t, es, past);
    }
  }

  lemma WiresNext(t: Tunnel, es: seq<Event>, past: seq<Bytes>)
    requires es != [] && Executes(t, es)
    ensures var more := if Reopens(t, es[0]) then [t.wire] else [];
            past + AllWires(t, es) == (past + more) + AllWires(Step(t, es[0]), es[1..])
  {
    hide Sound, Step, Enabled, Reopens;
    var more := if Reopens(t, es[0]) then [t.wire] else [];
    var u, rest := Step(t, es[0]), es[1..];
    assert AllWires(t, es) == (more + PastWires(u, rest)) + [After(u, rest).wire];
    Regroup(past, more, PastWires(u, rest), [After(u, rest).wire]);
  }

  lemma Regroup(a: seq<Bytes>, b: seq<Bytes>, c: seq<Bytes>, d: seq<Bytes>)
    ensures a + ((b + c) + d) == (a + b) + (c + d)
  {
  }

  lemma LastHeard(t: Tunnel, past: seq<Bytes>)
    requires Inv(t) && Heard(t) && HeardOn(past) == FramesOf(t.sent[..t.mark])
    ensures HeardOn(past + [t.wire]) == FramesOf(t.sent)
  {
    hide ChansOk, QueueOk, Sound, Parse, Good;
    HeardOnMore(past, [t.wire]);
    assert HeardOn([t.wire]) == Parse(t.wire).frames + HeardOn([]) == CurrentFrames(t);
    assert FramesOf(t.sent) == FramesOf(t.sent[..t.mark]) + FramesOf(t.sent[t.mark..]);
  }

  /** What is up to the mark is as it was, or everything sent so far. */
  lemma MarkHeard(t: Tunnel, u: Tunnel, reopens: bool)
    requires Inv(t) && Inv(u) && Recorded(t, u, reopens)
    ensures u.sent[..u.mark] == if reopens then t.sent else t.sent[..t.mark]
  {
    hide ChansOk, QueueOk, Sound;
  }

  /** The messages received on several connections, whatever the chunks on each. */
  function ReceivedOn(chunks: seq<seq<Bytes>>): seq<Frame> {
    if chunks == [] then [] else Receive(Parse([]), chunks[0]).frames + ReceivedOn(chunks[1..])
  }

  lemma {:induction false} ReceivedIsHeard(chunks: seq<seq<Bytes>>, wires: seq<Bytes>)
    requires |chunks| == |wires| && forall i :: 0 <= i < |wires| ==> Flatten(chunks[i]) == wires[i]
    ensures ReceivedOn(chunks) == HeardOn(wires)
  {
    hide Parse, Receive, Flatten;
    if chunks == [] {
    } else {
      ChunkIndependence([], chunks[0]);
      assert [] + Flatten(chunks[0]) == wires[0];
      ReceivedIsHeard(chunks[1..], wires[1..]);
    }
  }

  /** Over any legal run from the start in which no connection was torn, with any number of
      connections, failed sends and reconnections: if every byte that a connection accepted arrives,
      in whatever chunks, then the messages delivered over all connections are exactly the messages
      completed, in order, each of them once. */
  lemma DeliveredOnce(t: Tunnel, es: seq<Event>, chunks: seq<seq<Bytes>>)
    requires Initial(t) && Legal(t, es) && Executes(t, es) && NeverTears(t, es)
    requires |chunks| == |AllWires(t, es)|
    requires forall i :: 0 <= i < |chunks| ==> Flatten(chunks[i]) == AllWires(t, es)[i]
    ensures Inv(After(t, es)) && ReceivedOn(chunks) == FramesOf(After(t, es).sent)
  {
    hide Sound, LinkInv, Legal, Executes, After, NeverTears, Clean, AllWires, Parse, Receive, Flatten, ChansOk, QueueOk;
    InitialInv(t);
    StartHeard(t);
    RunHeard(t, es, []);
    ReceivedIsHeard(chunks, AllWires(t, es));
    assert [] + AllWires(t, es) == AllWires(t, es);
  }

  lemma StartHeard(t: Tunnel)
    requires Initial(t) && Inv(t)
    ensures Heard(t) && HeardOn([]) == FramesOf(t.sent[..t.mark])
  {
    hide ChansOk, QueueOk, Sound, FreshChan;
    DecodeNothing();
  }
}
