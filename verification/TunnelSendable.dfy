// Which runs can send what they are given (tcp_ingress.cc over channels.cc): if no datagram is empty,
// only what the kernel reports can make an assertion fail.
module TunnelSendable {
  import opened Basics
  import opened Wire
  import opened SpillQueue
  import opened Channels
  import opened ChannelFacts
  import opened Tunnel
  import opened TunnelLinks
  import opened TunnelRuns
  import opened TunnelTheorems
  import opened TunnelLosses
  import QueueRuns

  // ---------- what can be presented ----------

  /** Whatever is waiting can be presented when its turn comes. */
  predicate AllDescribable(t: Tunnel)
    requires QueueOk(t)
  {
    forall k :: 0 <= k < |t.waiting| ==> Describable(t.chans[t.waiting[k]])
  }

  lemma StillDescribable(c: Chan)
    requires ChanValid(c) && Describable(c)
    ensures Describable(Describe(c))
  {
    hide Encode, Peek, Contents, Good, Unsent, Presentable, Full, Describable, Valid;
    DescribableExactly(c);
    DescribeEffect(c);
    DescribeAgain(c);
    DescribableExactly(Describe(c));
  }

  /** However much of its message has been sent. */
  lemma PartDescribable(c: Chan, n: nat)
    requires ChanValid(c) && Describable(c) && c.held && n < |Offer(c)|
    ensures Describable(c.(done := c.done + n))
  {
    hide Encode, Peek, Contents, Good, Unsent, Presentable, Full, Describable, Valid, Offer;
    DescribableExactly(c);
    ConsumedEffect(c, n);
    DescribableExactly(c.(done := c.done + n));
  }

  /** The rest of the queue is as it was, and its first source can still be presented if it is still there. */
  lemma DescribableOn(t: Tunnel, u: Tunnel)
    requires QueueOk(t) && AllDescribable(t) && t.waiting != [] && |u.chans| == |t.chans|
    requires u.chans == t.chans[t.waiting[0] := u.chans[t.waiting[0]]]
    requires u.waiting == t.waiting[1..] || (u.waiting == t.waiting && Describable(u.chans[t.waiting[0]]))
    ensures QueueOk(u) && AllDescribable(u)
  {
    hide Describable;
    var h := t.waiting[0];
    assert forall k :: 1 <= k < |t.waiting| ==> t.waiting[k] != h;
    assert u.waiting == t.waiting[1..] ==> forall k :: 0 <= k < |u.waiting| ==> u.waiting[k] == t.waiting[k + 1];
  }

  lemma TurnDescribable(t: Tunnel, script: seq<Answer>)
    requires Sound(t) && QueueOk(t) && t.waiting != [] && AllDescribable(t)
    ensures TurnPresents(t)
    ensures var turn := LoopTurn(t, script);
            turn.Again? ==> QueueOk(turn.t) && AllDescribable(turn.t)
  {
    hide ChanValid, Describable, Describe, TookSome, Block, Break, Sound, Offer, AllDescribable, QueueOk;
    FirstDescribable(t);
    DescribedSound(t);
    var d, h := Described(t), t.waiting[0];
    StillDescribable(FirstChan(t));
    SetFirstIs(t, Describe(FirstChan(t)));
    DescribableOn(t, d);
    if !HeadHeld(d) {
      DescribableOn(d, Skip(d));
    } else if script != [] && script[0].Took? {
      TookDescribable(d, script[0].n);
    }
  }

  lemma FirstDescribable(t: Tunnel)
    requires Sound(t) && QueueOk(t) && t.waiting != [] && AllDescribable(t)
    ensures t.waiting[0] < |t.chans| && FirstChan(t) == t.chans[t.waiting[0]] && Describable(FirstChan(t))
    ensures t.chans == t.chans[t.waiting[0] := t.chans[t.waiting[0]]]
  {
    hide ChanValid, Describable;
  }

  lemma TookDescribable(t: Tunnel, n: nat)
    requires Sound(t) && QueueOk(t) && HeadHeld(t) && AllDescribable(t)
    ensures QueueOk(TookSome(t, n)) && AllDescribable(TookSome(t, n))
  {
    hide ChanValid, Describable, Describe, TookSome, Sound, Offer, Consumed, AllDescribable, QueueOk, Good;
    HeldFirst(t);
    FirstDescribable(t);
    TookShape(t, n);
    var k := Clip(n, |Offer(FirstChan(t))|);
    if k < |Offer(FirstChan(t))| { PartDescribable(FirstChan(t), k); }
    DescribableOn(t, TookSome(t, n));
  }

  lemma {:induction false} LoopDescribable(t: Tunnel, script: seq<Answer>)
    requires Sound(t) && QueueOk(t) && AllDescribable(t)
    ensures LoopPresents(t, script)
    decreases |t.waiting|, Pending(t)
  {
    hide Sound, QueueOk, AllDescribable, Pending, LoopTurn, TurnPresents;
    if t.waiting == [] {
    } else {
      TurnDescribable(t, script);
      var turn := LoopTurn(t, script);
      if turn.Again? {
        LoopProgress(t, script);
        LoopDescribable(turn.t, turn.script);
      }
    }
  }

  lemma SameQueue(t: Tunnel, u: Tunnel)
    requires Sound(t) && QueueOk(t) && AllDescribable(t) && u.chans == t.chans && u.waiting == t.waiting
    ensures Sound(u) && QueueOk(u) && AllDescribable(u)
  {
    hide ChanValid, Describable;
  }

  // ---------- datagrams that are not empty ----------

  predicate ChanFull(c: Chan) {
    forall e :: e in Contents(c.q) ==> Full(e)
  }

  /** No empty datagram is queued, in memory or on disc. */
  predicate AllFull(t: Tunnel) {
    forall i :: 0 <= i < |t.chans| ==> ChanFull(t.chans[i])
  }

  lemma FullDescribable(c: Chan)
    requires ChanValid(c) && ChanFull(c)
    ensures Describable(c)
  {
    hide Encode, Peek, Good, Unsent, Presentable, Full, Describable, Valid, QueueRuns.PeekKeeps;
    DescribableExactly(c);
    DescribeEffect(c);
    var d := Describe(c);
    if d.held {
      assert d.q.mem[0] in Contents(d.q);
      SubsequenceSize(Contents(d.q), Contents(c.q));
    }
  }

  lemma FullSends(t: Tunnel)
    requires Sound(t) && QueueOk(t) && AllFull(t)
    ensures AllDescribable(t)
  {
    hide ChanValid, Describable, ChanFull;
    forall k | 0 <= k < |t.waiting| ensures Describable(t.chans[t.waiting[k]]) {
      FullDescribable(t.chans[t.waiting[k]]);
    }
  }

  /** With no empty datagram queued, every event finds the channels' assertions true. */
  lemma FullPresents(t: Tunnel, e: Event)
    requires Inv(t) && Possible(t, e) && AllFull(t)
    ensures Presents(t, e)
  {
    hide Inv, Sound, QueueOk, AllDescribable, LoopPresents, AllFull, ChanValid;
    InvParts(t);
    FullSends(t);
    match e
    case Woken(i, script) =>
      QueuedInv(t, i);
      var u := t.(chans := t.chans[i := t.chans[i].(pending := false)],
                  waiting := if i in t.waiting then t.waiting else t.waiting + [i]);
      InvParts(u);
      StillFull(t, u, i);
      FullSends(u);
      LoopDescribable(u, script);
      assert [] + [i] == [i];
    case Notified(_, script, _) =>
      var w := t.(watch := t.watch.(queued := false), writable := true);
      SameQueue(t, w);
      LoopDescribable(w, script);
    case _ =>
  }

  lemma InvParts(t: Tunnel)
    requires Inv(t)
    ensures Sound(t) && QueueOk(t) && ChansOk(t)
  {
  }

  lemma StillFull(t: Tunnel, u: Tunnel, i: nat)
    requires i < |t.chans| && u.chans == t.chans[i := t.chans[i].(pending := false)] && AllFull(t)
    ensures AllFull(u)
  {
    hide Contents;
  }

  // ---------- runs ----------

  /** Nothing that a channel started with or was given is an empty datagram. */
  predicate EverFull(t: Tunnel) {
    forall i :: 0 <= i < |t.chans| ==> forall e :: e in t.chans[i].submitted ==> Full(e)
  }

  lemma EverFullNow(t: Tunnel)
    requires Inv(t) && EverFull(t)
    ensures AllFull(t)
  {
    hide Full, ChanValid, Contents, Share, QueueOk, Framing;
    forall i | 0 <= i < |t.chans| ensures ChanFull(t.chans[i]) {
      assert ChanOk(t.chans[i], i, t.waiting, t.sent);
      SubsequenceSize(Share(t.sent, i) + Contents(t.chans[i].q), t.chans[i].submitted);
      assert forall e :: e in Contents(t.chans[i].q) ==> e in Share(t.sent, i) + Contents(t.chans[i].q);
    }
  }

  predicate SameSubmitted(u: Tunnel, t: Tunnel) {
    |u.chans| == |t.chans| && forall i :: 0 <= i < |t.chans| ==> u.chans[i].submitted == t.chans[i].submitted
  }

  lemma FewerSubmitted(u: Tunnel, t: Tunnel)
    requires Fewer(u, t)
    ensures SameSubmitted(u, t)
  {
    hide Held;
  }

  /** Nothing is given to a channel except by being submitted. */
  lemma StepSubmitted(t: Tunnel, e: Event)
    requires Inv(t) && Enabled(t, e) && !e.Submitted?
    ensures SameSubmitted(Step(t, e), t)
  {
    hide Inv, Sound, SourceReady, DescriptorReady, TryConnect, SendKeeps, Fewer, Same, ChanValid, Presents;
    InvSound(t);
    match e
    case Activated(i) =>
    case Woken(i, script) =>
      ChanSound(t, i);
      NotPending(t.chans[i]);
      SetChanSound(t, i, t.chans[i].(pending := false));
      var c := t.(chans := t.chans[i := t.chans[i].(pending := false)]);
      QueuedInv(t, i);
      ReadyLoss(c, i, c.(waiting := if i in c.waiting then c.waiting else c.waiting + [i]), script);
      FewerSubmitted(SourceReady(c, i, script), c);
    case Notified(soerr, script, conns) =>
      NotifiedLoss(t, soerr, script, conns);
      FewerSubmitted(Step(t, e), t);
    case LookedUp(addrs, conns) =>
      var r := t.(lookup := false, addrs := addrs, connected := false);
      SoundLess(t, r);
      ConnectLoss(r, conns);
    case _ =>
  }

  lemma StepFull(t: Tunnel, e: Event)
    requires Inv(t) && Enabled(t, e) && EverFull(t) && (e.Submitted? ==> e.payload != [])
    ensures EverFull(Step(t, e))
  {
    hide Inv, Sound, Presents, Full, Asserts;
    if e.Submitted? {
      EntryFull(e.clid, e.payload);
    } else {
      StepSubmitted(t, e);
    }
  }

  lemma EntryFull(clid: nat, payload: Bytes)
    ensures Full(Entry(clid, payload)) <==> payload != []
  {
    EntrySize(clid, payload);
  }

  predicate NoneEmpty(es: seq<Event>) {
    forall k :: 0 <= k < |es| && es[k].Submitted? ==> es[k].payload != []
  }

  /** The kernel reports neither an early closure nor an error alone. */
  predicate NoneSudden(t: Tunnel, es: seq<Event>)
    decreases |es|
  {
    es == [] ||
    (!ClosedEarly(t, es[0]) && !ErrorOnly(t, es[0])
     && (Sound(t) && Enabled(t, es[0]) ==> NoneSudden(Step(t, es[0]), es[1..])))
  }

  /** In a legal run in which no datagram is empty, no assertion fails exactly when the kernel reports
      neither an early closure nor an error alone. */
  lemma {:induction false} FullRuns(t: Tunnel, es: seq<Event>)
    requires Inv(t) && LinkInv(t) && Legal(t, es) && EverFull(t) && NoneEmpty(es)
    ensures Executes(t, es) <==> NoneSudden(t, es)
    ensures Executes(t, es) ==> EverFull(After(t, es))
    decreases |es|
  {
    hide Sound, LinkInv, Step, Possible, Asserts, OpensWindow, ChansOk, QueueOk, Framing, Presents, ClosedEarly,
      ErrorOnly, EverFull, AllFull;
    if es == [] {
    } else {
      AssertionsHold(t, es[0]);
      EverFullNow(t);
      FullPresents(t, es[0]);
      if Enabled(t, es[0]) {
        StepInv(t, es[0]);
        StepLink(t, es[0]);
        StepFull(t, es[0]);
        assert NoneEmpty(es[1..]);
        FullRuns(Step(t, es[0]), es[1..]);
      }
    }
  }
}
