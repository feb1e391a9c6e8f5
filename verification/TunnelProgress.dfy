// What can always be sent is sent in the end (tcp_ingress.cc over channels.cc): nothing waits without
// something on its way to get it sent, and from every reachable state the queue can be emptied.
module TunnelProgress {
  import opened Basics
  import opened Wire
  import opened SpillQueue
  import opened Channels
  import opened ChannelFacts
  import opened Tunnel
  import opened TunnelLinks
  import opened TunnelRuns
  import opened TunnelTheorems
  import opened TunnelLosses
  import opened TunnelSendable

  // ---------- sending everything ----------

  /** As much as any message. */
  const PLENTY := 0x2_0000

  function Plenty(n: nat): seq<Answer> {
    seq(n, _ => Took(PLENTY))
  }

  lemma OfferWithin(c: Chan)
    requires ChanValid(c) && c.held
    ensures |Offer(c)| <= PLENTY
  {
    hide Encode;
    GoodFits(c.tag, c.q.mem[0]);
  }

  lemma TakesAll(t: Tunnel)
    requires Sound(t) && HeadHeld(t)
    ensures TookSome(t, PLENTY).waiting == t.waiting[1..]
  {
    hide ChanValid, Offer, Consumed, TookSome, Good, Sound;
    HeldFirst(t);
    OfferWithin(FirstChan(t));
    TookShape(t, PLENTY);
  }

  /** If the socket accepts everything, one call sends from every source that waits. */
  lemma {:induction false} SendsAll(t: Tunnel, n: nat)
    requires Sound(t) && |t.waiting| <= n
    ensures SendLoop(t, Plenty(n)).waiting == []
    decreases |t.waiting|
  {
    hide Sound, Pending, Described, HeadHeld, TookSome, Block, Break;
    if t.waiting == [] {
    } else {
      DescribedSound(t);
      var turn := LoopTurn(t, Plenty(n));
      if HeadHeld(Described(t)) { TakesAll(Described(t)); }
      LoopProgress(t, Plenty(n));
      assert Plenty(n)[1..] == Plenty(n - 1);
      SendsAll(turn.t, |turn.script|);
    }
  }

  // ---------- what becomes of the channels ----------

  /** A channel's queue does not grow, and gets shorter, or is empty, if the channel leaves the queue. */
  ghost predicate ChanAdvances(d: Chan, c: Chan, leaves: bool) {
    && d.live == c.live
    && Subsequence(Contents(d.q), Contents(c.q))
    && (leaves ==> Contents(d.q) == [] || |Contents(d.q)| < |Contents(c.q)|)
  }

  ghost predicate Advances(u: Tunnel, t: Tunnel) {
    |u.chans| == |t.chans| && forall i: nat :: i < |t.chans| ==>
      ChanAdvances(u.chans[i], t.chans[i], i in t.waiting && i !in u.waiting)
  }

  lemma AdvancesTwice(w: Tunnel, u: Tunnel, t: Tunnel)
    requires Advances(w, u) && Advances(u, t)
    ensures Advances(w, t)
  {
    hide Contents;
    forall i: nat | i < |t.chans|
      ensures ChanAdvances(w.chans[i], t.chans[i], i in t.waiting && i !in w.waiting)
    {
      assert ChanAdvances(w.chans[i], u.chans[i], i in u.waiting && i !in w.waiting);
      assert ChanAdvances(u.chans[i], t.chans[i], i in t.waiting && i !in u.waiting);
      SubsequenceTrans(Contents(w.chans[i].q), Contents(u.chans[i].q), Contents(t.chans[i].q));
      SubsequenceSize(Contents(w.chans[i].q), Contents(u.chans[i].q));
      SubsequenceSize(Contents(u.chans[i].q), Contents(t.chans[i].q));
    }
  }

  /** Only the first channel changes, and only it may leave the queue. */
  lemma FirstAdvances(t: Tunnel, u: Tunnel)
    requires t.waiting != [] && t.waiting[0] < |t.chans| && |u.chans| == |t.chans|
    requires u.chans == t.chans[t.waiting[0] := u.chans[t.waiting[0]]]
    requires u.waiting == t.waiting || u.waiting == t.waiting[1..]
    requires ChanAdvances(u.chans[t.waiting[0]], t.chans[t.waiting[0]], u.waiting == t.waiting[1..])
    ensures Advances(u, t)
  {
    hide Contents;
    forall i: nat | i < |t.chans|
      ensures ChanAdvances(u.chans[i], t.chans[i], i in t.waiting && i !in u.waiting)
    {
      if i != t.waiting[0] {
        SubsequenceRefl(Contents(t.chans[i].q));
        if i in t.waiting {
          var k :| 0 <= k < |t.waiting| && t.waiting[k] == i;
          assert u.waiting == t.waiting[1..] ==> u.waiting[k - 1] == i;
        }
      }
    }
  }

  lemma SameAdvances(t: Tunnel, u: Tunnel)
    requires u.chans == t.chans && (forall i: nat :: i in t.waiting ==> i in u.waiting)
    ensures Advances(u, t)
  {
    hide Contents;
    forall i: nat | i < |t.chans| ensures ChanAdvances(u.chans[i], t.chans[i], false) {
      SubsequenceRefl(Contents(t.chans[i].q));
    }
  }

  lemma TurnAdvances(t: Tunnel, script: seq<Answer>)
    requires Sound(t) && t.waiting != []
    ensures Advances(LoopTurn(t, script).t, t)
  {
    hide ChanValid, Described, Describe, Contents, TookSome, Block, Break, Sound, Offer, Advances, Consumed, HeadHeld;
    DescribedSound(t);
    DescribedAdvances(t);
    var d := Described(t);
    if !HeadHeld(d) {
      SkipAdvances(t);
    } else if script != [] && script[0].Took? {
      TookAdvances(d, script[0].n);
    } else {
      StopAdvances(d);
    }
    AdvancesTwice(LoopTurn(t, script).t, if HeadHeld(d) then d else t, t);
  }

  lemma DescribedAdvances(t: Tunnel)
    requires Sound(t) && t.waiting != []
    ensures Advances(Described(t), t) && Advances(t, t)
  {
    hide ChanValid, Describe, Contents, Advances;
    DescribeEffect(FirstChan(t));
    FirstAdvances(t, Described(t));
    SameAdvances(t, t);
  }

  /** A source that has nothing to send has an empty queue. */
  lemma SkipAdvances(t: Tunnel)
    requires Sound(t) && t.waiting != [] && Sound(Described(t)) && !HeadHeld(Described(t))
    ensures Advances(Skip(Described(t)), t)
  {
    hide ChanValid, Describe, Contents, Advances;
    DescribeEffect(FirstChan(t));
    FirstAdvances(t, Skip(Described(t)));
  }

  lemma TookAdvances(t: Tunnel, n: nat)
    requires Sound(t) && HeadHeld(t)
    ensures Advances(TookSome(t, n), t)
  {
    hide ChanValid, Contents, TookSome, Offer, Consumed, Advances, Sound, Good;
    HeldFirst(t);
    TookShape(t, n);
    var c := FirstChan(t);
    var k := Clip(n, |Offer(c)|);
    ConsumedEffect(c, k);
    SubsequenceRefl(Contents(c.q));
    var d := Consumed(c, k);
    if !d.held {
      SubsequenceSize([c.q.mem[0]] + Contents(d.q), Contents(c.q));
      SubsequenceRefl(Contents(d.q));
      SubsequencePrefix([c.q.mem[0]], Contents(d.q), Contents(d.q));
      SubsequenceTrans(Contents(d.q), [c.q.mem[0]] + Contents(d.q), Contents(c.q));
    }
    FirstChanIs(t);
    FirstAdvances(t, TookSome(t, n));
  }

  /** The turn that ends the loop leaves the queues alone. */
  lemma StopAdvances(t: Tunnel)
    requires Sound(t) && HeadHeld(t)
    ensures Advances(Block(t), t) && Advances(Break(t), t)
  {
    hide ChanValid, Contents, Consumed, Advances, Sound, HeadHeld, Offer, Block, Break;
    HeldFirst(t);
    var c := FirstChan(t);
    OfferSize(c);
    ConsumedEffect(c, 0);
    FirstChanIs(t);
    StopShape(t);
    HeadAdvances(t, Block(t), Consumed(c, 0));
    HeadAdvances(t, Break(t), Failed(c));
  }

  lemma HeadAdvances(t: Tunnel, u: Tunnel, c: Chan)
    requires Sound(t) && t.waiting != [] && u.waiting == t.waiting
    requires c.q == FirstChan(t).q && c.live == FirstChan(t).live
    requires t.waiting[0] < |t.chans| && u.chans == t.chans[t.waiting[0] := c]
    ensures Advances(u, t)
  {
    hide ChanValid, Contents, Advances;
    SubsequenceRefl(Contents(c.q));
    FirstAdvances(t, u);
  }

  lemma {:induction false} LoopAdvances(t: Tunnel, script: seq<Answer>)
    requires Sound(t)
    ensures Advances(SendLoop(t, script), t)
    decreases |t.waiting|, Pending(t)
  {
    hide Sound, Pending, LoopTurn, Advances;
    if t.waiting == [] {
      SameAdvances(t, t);
    } else {
      TurnAdvances(t, script);
      var turn := LoopTurn(t, script);
      if turn.Again? {
        LoopProgress(t, script);
        LoopAdvances(turn.t, turn.script);
        AdvancesTwice(SendLoop(turn.t, turn.script), turn.t, t);
      }
    }
  }

  // ---------- emptying the queue ----------

  /** A state in which nothing is amiss with the connection or with what is waiting. */
  ghost predicate Fit(t: Tunnel) {
    Sound(t) && LinkInv(t) && QueueOk(t) && AllDescribable(t)
  }

  /** Some finite course of events, at which no assertion fails, empties the queue. */
  ghost predicate CanDrain(t: Tunnel) {
    exists es: seq<Event> :: Drains(t, es)
  }

  ghost predicate Drains(t: Tunnel, es: seq<Event>) {
    Legal(t, es) && Executes(t, es) && After(t, es).waiting == [] && Advances(After(t, es), t)
  }

  /** It is enough that the queue can be emptied after one more event. */
  lemma OneMore(t: Tunnel, e: Event)
    requires Sound(t) && Enabled(t, e) && !OpensWindow(t, e) && CanDrain(Step(t, e)) && Advances(Step(t, e), t)
    ensures CanDrain(t)
  {
    hide Sound, Step, Enabled, OpensWindow, Advances;
    var es :| Drains(Step(t, e), es);
    var all := [e] + es;
    assert all[0] == e && all[1..] == es;
    assert Possible(t, e) by { EnabledPossible(t, e); }
    AdvancesTwice(After(Step(t, e), es), Step(t, e), t);
    assert Drains(t, all);
  }

  lemma EnabledPossible(t: Tunnel, e: Event)
    requires Sound(t) && Enabled(t, e)
    ensures Possible(t, e)
  {
  }

  lemma AlreadyDrained(t: Tunnel)
    requires t.waiting == []
    ensures CanDrain(t)
  {
    SameAdvances(t, t);
    assert Drains(t, []);
  }

  /** An event that only concerns the connection. */
  lemma LinkEvent(t: Tunnel, e: Event)
    requires Fit(t) && Enabled(t, e) && !OpensWindow(t, e)
    requires Step(t, e).chans == t.chans && Step(t, e).waiting == t.waiting
    ensures Fit(Step(t, e)) && Advances(Step(t, e), t)
  {
    hide LinkInv, Step, Enabled, OpensWindow, ChanValid, Describable, Advances;
    StepLink(t, e);
    SameAdvances(t, Step(t, e));
  }

  predicate Open(t: Tunnel) {
    t.sock && t.connected && !Closing(t.watch.got)
  }

  /** A connection that can be written to. */
  lemma DrainWritable(t: Tunnel)
    requires Fit(t) && Open(t) && t.watch.queued && EvOut in t.watch.got
    ensures CanDrain(t)
  {
    hide ChanValid, Describable, Advances, SendLoop, LoopPresents, Sound, AllDescribable, QueueOk;
    var e := Notified(false, Plenty(|t.waiting|), []);
    var w := t.(watch := t.watch.(queued := false), writable := true);
    SameQueue(t, w);
    LoopDescribable(w, e.script);
    SendsAll(w, |t.waiting|);
    LoopAdvances(w, e.script);
    SameAdvances(t, w);
    AdvancesTwice(SendLoop(w, e.script), w, t);
    assert Step(t, e) == SendLoop(w, e.script);
    AlreadyDrained(Step(t, e));
    OneMore(t, e);
  }

  lemma DrainOpen(t: Tunnel)
    requires Fit(t) && Open(t) && t.waiting != []
    ensures CanDrain(t)
  {
    hide ChanValid, Describable, Advances, Sound, AllDescribable, QueueOk;
    if t.watch.queued && EvOut in t.watch.got {
      DrainWritable(t);
    } else {
      var e := Reported({EvOut});
      assert Enabled(t, e);
      LinkEvent(t, e);
      DrainWritable(Step(t, e));
      OneMore(t, e);
    }
  }

  lemma DrainLookup(t: Tunnel)
    requires Fit(t) && t.lookup && t.waiting != []
    ensures CanDrain(t)
  {
    hide ChanValid, Describable, Advances, Sound, AllDescribable, QueueOk, Partial;
    var e := LookedUp([OtherFamily], [Immediate]);
    assert Enabled(t, e);
    SameQueue(t, t.(lookup := false, addrs := e.addrs, connected := false));
    LinkEvent(t, e);
    DrainOpen(Step(t, e));
    OneMore(t, e);
  }

  lemma DrainDue(t: Tunnel)
    requires Fit(t) && t.timerDue && t.waiting != []
    ensures CanDrain(t)
  {
    hide ChanValid, Describable, Advances, Sound, AllDescribable, QueueOk;
    var e := TimerNotified;
    assert Enabled(t, e);
    LinkEvent(t, e);
    DrainLookup(Step(t, e));
    OneMore(t, e);
  }

  lemma DrainTimer(t: Tunnel)
    requires Fit(t) && t.timerSet && t.waiting != []
    ensures CanDrain(t)
  {
    hide ChanValid, Describable, Advances, Sound, AllDescribable, QueueOk;
    var e := TimerExpired;
    assert Enabled(t, e);
    LinkEvent(t, e);
    DrainDue(Step(t, e));
    OneMore(t, e);
  }

  /** With every attempt refused, no address is left. */
  lemma {:induction false} AllRefused(ipv4: bool, ipv6: bool, addrs: seq<Family>)
    ensures Connect(ipv4, ipv6, addrs, []) == Exhausted
  {
    if addrs == [] {
    } else {
      AllRefused(ipv4, ipv6, addrs[1..]);
    }
  }

  /** The closure is noticed, and after that the timer runs. */
  lemma DrainClosing(t: Tunnel)
    requires Fit(t) && t.sock && Closing(t.watch.got) && t.watch.queued && t.waiting != []
    ensures CanDrain(t)
  {
    hide ChanValid, Describable, Advances, Sound, AllDescribable, QueueOk, Connect;
    var e := Notified(true, [], []);
    assert Enabled(t, e);
    var r := t.(watch := t.watch.(queued := false));
    SameQueue(t, r);
    SameQueue(t, ClearSocket(r.(addrs := t.addrs[1..])));
    AllRefused(t.ipv4, t.ipv6, t.addrs[1..]);
    LinkEvent(t, e);
    DrainTimer(Step(t, e));
    OneMore(t, e);
  }

  lemma DrainClosed(t: Tunnel)
    requires Fit(t) && t.sock && Closing(t.watch.got) && t.waiting != []
    ensures CanDrain(t)
  {
    hide ChanValid, Describable, Advances, Sound, AllDescribable, QueueOk;
    if t.watch.queued {
      DrainClosing(t);
    } else {
      var e := Reported({EvHup});
      assert Enabled(t, e);
      LinkEvent(t, e);
      DrainClosing(Step(t, e));
      OneMore(t, e);
    }
  }

  /** The connection is made, and after that it can be used. */
  lemma DrainConnecting(t: Tunnel)
    requires Fit(t) && t.sock && !t.connected && !Closing(t.watch.got) && t.watch.queued && EvOut in t.watch.got
    requires t.waiting != []
    ensures CanDrain(t)
  {
    hide ChanValid, Describable, Advances, Sound, AllDescribable, QueueOk;
    var e := Notified(false, [], []);
    assert Enabled(t, e);
    LinkEvent(t, e);
    DrainOpen(Step(t, e));
    OneMore(t, e);
  }

  lemma DrainDialling(t: Tunnel)
    requires Fit(t) && t.sock && !t.connected && !Closing(t.watch.got) && t.waiting != []
    ensures CanDrain(t)
  {
    hide ChanValid, Describable, Advances, Sound, AllDescribable, QueueOk;
    if t.watch.queued && EvOut in t.watch.got {
      DrainConnecting(t);
    } else {
      var e := Reported({EvOut});
      assert Enabled(t, e);
      LinkEvent(t, e);
      DrainConnecting(Step(t, e));
      OneMore(t, e);
    }
  }

  /** Wherever the connection has got to, the queue can be emptied. */
  lemma FitDrains(t: Tunnel)
    requires Fit(t)
    ensures CanDrain(t)
  {
    hide CanDrain, Sound, AllDescribable, QueueOk;
    if t.waiting == [] {
      AlreadyDrained(t);
    } else if t.sock && Closing(t.watch.got) {
      DrainClosed(t);
    } else if t.sock && t.connected {
      DrainOpen(t);
    } else if t.sock {
      DrainDialling(t);
    } else if t.lookup {
      DrainLookup(t);
    } else if t.timerSet {
      DrainTimer(t);
    } else {
      DrainDue(t);
    }
  }

  // ---------- emptying every queue ----------

  /** Nothing is waiting, and no channel that has been activated has anything left to send. */
  predicate Flushed(t: Tunnel) {
    t.waiting == [] && forall i :: 0 <= i < |t.chans| && t.chans[i].live ==> Contents(t.chans[i].q) == []
  }

  ghost predicate CanFlush(t: Tunnel) {
    exists es: seq<Event> :: Flushes(t, es)
  }

  predicate Flushes(t: Tunnel, es: seq<Event>) {
    Legal(t, es) && Executes(t, es) && Flushed(After(t, es))
  }

  /** How many records the channels hold. */
  function Queued(chans: seq<Chan>): nat {
    if chans == [] then 0 else |Contents(chans[0].q)| + Queued(chans[1..])
  }

  lemma {:induction false} QueuedLess(now: seq<Chan>, was: seq<Chan>, i: nat)
    requires |now| == |was| && i < |was|
    requires forall j :: 0 <= j < |was| ==> |Contents(now[j].q)| <= |Contents(was[j].q)|
    ensures Queued(now) <= Queued(was)
    ensures |Contents(now[i].q)| < |Contents(was[i].q)| ==> Queued(now) < Queued(was)
  {
    hide Contents;
    if |was| == 1 {
    } else {
      QueuedLess(now[1..], was[1..], if i == 0 then 0 else i - 1);
    }
  }

  /** If a channel with something to send leaves the queue, less is held than before. */
  lemma LeftLess(u: Tunnel, t: Tunnel, i: nat)
    requires Advances(u, t) && i < |t.chans| && i in t.waiting && i !in u.waiting && Contents(t.chans[i].q) != []
    ensures Queued(u.chans) < Queued(t.chans)
  {
    hide Contents;
    forall j: nat | j < |t.chans| ensures |Contents(u.chans[j].q)| <= |Contents(t.chans[j].q)| {
      assert ChanAdvances(u.chans[j], t.chans[j], j in t.waiting && j !in u.waiting);
      SubsequenceSize(Contents(u.chans[j].q), Contents(t.chans[j].q));
    }
    assert ChanAdvances(u.chans[i], t.chans[i], true);
    QueuedLess(u.chans, t.chans, i);
  }

  lemma AdvancesFull(u: Tunnel, t: Tunnel)
    requires Advances(u, t) && AllFull(t)
    ensures AllFull(u)
  {
    hide Contents, Full;
    forall i: nat | i < |t.chans| ensures ChanFull(u.chans[i]) {
      assert ChanAdvances(u.chans[i], t.chans[i], i in t.waiting && i !in u.waiting);
      SubsequenceSize(Contents(u.chans[i].q), Contents(t.chans[i].q));
      assert ChanFull(t.chans[i]);
    }
  }

  /** A state that can be emptied. */
  ghost predicate Sendable(t: Tunnel) {
    Inv(t) && LinkInv(t) && AllFull(t)
  }

  lemma DrainRun(t: Tunnel) returns (es: seq<Event>)
    requires Sendable(t)
    ensures Drains(t, es) && Sendable(After(t, es))
  {
    hide Inv, LinkInv, AllFull, Sound, QueueOk, AllDescribable, Legal, Executes, After, Advances;
    InvParts(t);
    FullSends(t);
    FitDrains(t);
    es :| Drains(t, es);
    RunKeeps(t, es);
    AdvancesFull(After(t, es), t);
  }

  /** A channel with something to send and nothing waiting: it is woken, and the queue is emptied again. */
  lemma WakeRun(t: Tunnel, i: nat) returns (es: seq<Event>)
    requires Sendable(t) && t.waiting == [] && !t.timerDue && i < |t.chans|
    requires t.chans[i].pending && Contents(t.chans[i].q) != []
    ensures Legal(t, es) && Executes(t, es) && After(t, es).waiting == [] && Sendable(After(t, es))
    ensures Queued(After(t, es).chans) < Queued(t.chans)
  {
    hide Inv, LinkInv, AllFull, Sound, Step, Presents, Legal, Executes, After, Advances, Contents, Queued;
    var e := Woken(i, []);
    InvParts(t);
    FullPresents(t, e);
    var u := t.(chans := t.chans[i := t.chans[i].(pending := false)], waiting := [i]);
    StepInv(t, e);
    StepLink(t, e);
    WokenAdvances(t, i);
    StillFull(t, u, i);
    AdvancesFull(Step(t, e), u);
    var more := DrainRun(Step(t, e));
    es := [e] + more;
    OneThen(t, e, more);
    AdvancesTwice(After(t, es), Step(t, e), u);
    LeftLess(After(t, es), u, i);
    SameQueued(t.chans, i);
  }

  lemma OneThen(t: Tunnel, e: Event, more: seq<Event>)
    requires Sound(t) && Enabled(t, e) && !OpensWindow(t, e) && Legal(Step(t, e), more) && Executes(Step(t, e), more)
    ensures Legal(t, [e] + more) && Executes(t, [e] + more) && After(t, [e] + more) == After(Step(t, e), more)
  {
    hide Sound, Step, Possible, Asserts, Presents, OpensWindow;
    var all := [e] + more;
    assert all[0] == e && all[1..] == more;
  }

  lemma WokenAdvances(t: Tunnel, i: nat)
    requires Sound(t) && t.waiting == [] && Enabled(t, Woken(i, []))
    ensures Advances(Step(t, Woken(i, [])),
                     t.(chans := t.chans[i := t.chans[i].(pending := false)], waiting := [i]))
  {
    hide ChanValid, Advances, SendLoop, Presents;
    var c := t.(chans := t.chans[i := t.chans[i].(pending := false)]);
    NotPending(t.chans[i]);
    SetChanSound(t, i, t.chans[i].(pending := false));
    var u := c.(waiting := [i]);
    assert [] + [i] == [i];
    if t.sock && t.connected && t.writable {
      LoopAdvances(u, []);
    } else {
      SameAdvances(u, Step(t, Woken(i, [])));
    }
  }

  lemma SameQueued(chans: seq<Chan>, i: nat)
    requires i < |chans|
    ensures Queued(chans[i := chans[i].(pending := false)]) == Queued(chans)
  {
    hide Contents;
    var other := chans[i := chans[i].(pending := false)];
    QueuedLess(other, chans, i);
    QueuedLess(chans, other, i);
  }

  /** With nothing waiting, the timer's handler can run first. */
  lemma SettleRun(t: Tunnel) returns (es: seq<Event>)
    requires Sendable(t) && t.waiting == []
    ensures Legal(t, es) && Executes(t, es)
    ensures var u := After(t, es);
            Sendable(u) && u.waiting == [] && !u.timerDue && u.chans == t.chans
  {
    hide Inv, Sound, AllFull, Legal, Executes, After;
    InvParts(t);
    es := [];
    NoneYet(t);
    if t.timerDue {
      var e := TimerNotified;
      assert Enabled(t, e);
      StepInv(t, e);
      StepLink(t, e);
      NoneYet(Step(t, e));
      OneThen(t, e, []);
      es := [e] + [];
      assert AllFull(Step(t, e)) by { SameFull(t, Step(t, e)); }
    }
  }

  lemma NoneYet(t: Tunnel)
    ensures Legal(t, []) && Executes(t, []) && After(t, []) == t
  {
  }

  lemma SameFull(t: Tunnel, u: Tunnel)
    requires AllFull(t) && u.chans == t.chans
    ensures AllFull(u)
  {
    hide ChanFull;
  }

  /** Two courses of events, of which the second ends with everything sent. */
  lemma ThenFlush(t: Tunnel, es: seq<Event>)
    requires Legal(t, es) && Executes(t, es) && CanFlush(After(t, es))
    ensures CanFlush(t)
  {
    hide Legal, Executes, After, Flushed;
    var more :| Flushes(After(t, es), more);
    RunsOn(t, es, more);
    assert Flushes(t, es + more);
  }

  /** From a state with nothing waiting, by waking one channel after another. */
  lemma {:induction false} QuietFlushes(t: Tunnel)
    requires Sendable(t) && t.waiting == []
    ensures CanFlush(t)
    decreases Queued(t.chans)
  {
    hide Inv, LinkInv, AllFull, Legal, Executes, After, Contents, Queued, CanFlush;
    if i: nat :| i < |t.chans| && t.chans[i].live && Contents(t.chans[i].q) != [] {
      HasPending(t, i);
      var es := SettleRun(t);
      var u := After(t, es);
      var more := WakeRun(u, i);
      QuietFlushes(After(u, more));
      ThenFlush(u, more);
      ThenFlush(t, es);
    } else {
      NothingLeft(t);
    }
  }

  lemma NothingLeft(t: Tunnel)
    requires Flushed(t)
    ensures CanFlush(t)
  {
    assert Flushes(t, []);
  }

  lemma HasPending(t: Tunnel, i: nat)
    requires Inv(t) && i < |t.chans| && t.chans[i].live && Contents(t.chans[i].q) != []
    ensures i in t.waiting || t.chans[i].pending
  {
    hide ChanValid, Share;
    assert ChanOk(t.chans[i], i, t.waiting, t.sent);
  }

  // ---------- over runs ----------

  /** Over every run: whenever something is waiting to be sent, something is on its way to get it sent. The
      timer runs or has expired, a lookup is outstanding, or an open socket awaits writability. */
  lemma NeverStuck(t: Tunnel, es: seq<Event>)
    requires Initial(t) && Legal(t, es) && Executes(t, es)
    ensures var u := After(t, es);
            u.waiting != [] ==> u.timerSet || u.timerDue || u.lookup || (u.sock && u.watch.on && AwaitsWrite(u))
  {
    hide Initial, Inv, Legal, Executes, After, Clean;
    InitialInv(t);
    RunKeeps(t, es);
  }

  /** Over every run: a live channel with anything queued, in memory or on disc, is waiting to be sent or is
      about to be woken. */
  lemma NoneStranded(t: Tunnel, es: seq<Event>, i: nat)
    requires Initial(t) && Legal(t, es) && Executes(t, es) && i < |After(t, es).chans|
    ensures var u := After(t, es);
            u.chans[i].live && Contents(u.chans[i].q) != [] ==> i in u.waiting || u.chans[i].pending
  {
    hide Initial, Inv, LinkInv, Legal, Executes, After, Clean, Contents;
    InitialInv(t);
    RunKeeps(t, es);
    var u := After(t, es);
    if u.chans[i].live && Contents(u.chans[i].q) != [] { HasPending(u, i); }
  }

  predicate Empties(t: Tunnel, es: seq<Event>) {
    Legal(t, es) && Executes(t, es) && After(t, es).waiting == []
  }

  /** From every reachable state in which whatever is waiting can be presented, some finite course of
      events, at which no assertion fails, empties the queue of sources. */
  lemma QueueEmpties(t: Tunnel, es: seq<Event>)
    requires Initial(t) && Legal(t, es) && Executes(t, es)
    requires QueueOk(After(t, es)) && AllDescribable(After(t, es))
    ensures exists more :: Empties(t, es + more)
  {
    hide Initial, Inv, LinkInv, Legal, Executes, After, Clean, QueueOk, AllDescribable, Advances;
    InitialInv(t);
    RunKeeps(t, es);
    InvParts(After(t, es));
    FitDrains(After(t, es));
    var more :| Drains(After(t, es), more);
    RunsOn(t, es, more);
    assert Empties(t, es + more);
  }

  /** From every state that a run without empty datagrams reaches, whatever has happened to the connections, some
      finite course of events, at which no assertion fails, sends everything that active channels hold. */
  lemma EverythingGoes(t: Tunnel, es: seq<Event>)
    requires Initial(t) && EverFull(t) && NoneEmpty(es) && Legal(t, es) && Executes(t, es)
    ensures exists more :: Flushes(t, es + more)
  {
    hide Initial, Inv, LinkInv, Legal, Executes, After, Clean, EverFull, NoneEmpty, AllFull, Flushed;
    InitialInv(t);
    RunKeeps(t, es);
    FullRuns(t, es);
    var u := After(t, es);
    EverFullNow(u);
    var first := DrainRun(u);
    QuietFlushes(After(u, first));
    ThenFlush(u, first);
    var more :| Flushes(u, more);
    RunsOn(t, es, more);
    assert Flushes(t, es + more);
  }
}
