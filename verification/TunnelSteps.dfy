// What the handlers of the sending end do, field by field (tcp_ingress.cc): which address is connected to,
// how a call to send ends, and what is waited for afterwards.
module TunnelSteps {
  import opened Basics
  import opened Wire
  import opened Channels
  import opened ChannelFacts
  import opened Tunnel
  import opened TunnelLinks
  import opened TunnelRuns
  import opened TunnelTheorems
  import opened TunnelSendable

  // ---------- which address is connected to ----------

  /** The ends of the list that begin with an address of a family that is switched on. */
  function Starts(ipv4: bool, ipv6: bool, addrs: seq<Family>): seq<seq<Family>> {
    if addrs == [] then []
    else
      (if (addrs[0] == V4 && !ipv4) || (addrs[0] == V6 && !ipv6) then [] else [addrs]) + Starts(ipv4, ipv6, addrs[1..])
  }

  /** What came of each address that was tried: a failure to bind is tried again. */
  function Verdicts(script: seq<ConnAnswer>): seq<ConnAnswer> {
    if script == [] then []
    else (if script[0] == BindFails then [] else [script[0]]) + Verdicts(script[1..])
  }

  /** The place of the first verdict that is a connection, made or being made. */
  function FirstMade(verdicts: seq<ConnAnswer>): (k: nat)
    ensures k <= |verdicts|
    ensures k < |verdicts| ==> verdicts[k] == InProgress || verdicts[k] == Immediate
    ensures forall j :: 0 <= j < k ==> verdicts[j] != InProgress && verdicts[j] != Immediate
  {
    if verdicts == [] || verdicts[0] == InProgress || verdicts[0] == Immediate then 0
    else 1 + FirstMade(verdicts[1..])
  }

  /** The verdicts fall to the addresses that are switched on, in order: the first that is a connection decides
      the address, and if there is none for any of them, or the verdicts run out, all have been passed over. */
  function Decided(starts: seq<seq<Family>>, verdicts: seq<ConnAnswer>): Attempt {
    var k := FirstMade(verdicts);
    if k >= |verdicts| || k >= |starts| then Exhausted
    else if verdicts[k] == InProgress then Connecting(starts[k])
    else Connected(starts[k])
  }

  lemma {:induction false} ConnectExactly(ipv4: bool, ipv6: bool, addrs: seq<Family>, script: seq<ConnAnswer>)
    ensures Connect(ipv4, ipv6, addrs, script) == Decided(Starts(ipv4, ipv6, addrs), Verdicts(script))
    decreases |addrs|, |script|
  {
    if addrs == [] {
    } else {
      var later := Starts(ipv4, ipv6, addrs[1..]);
      assert [] + later == later;
      if (addrs[0] == V4 && !ipv4) || (addrs[0] == V6 && !ipv6) || script == [] {
        ConnectExactly(ipv4, ipv6, addrs[1..], script);
      } else if script[0] == BindFails {
        assert [] + Verdicts(script[1..]) == Verdicts(script[1..]);
        ConnectExactly(ipv4, ipv6, addrs, script[1..]);
      } else {
        ConnectExactly(ipv4, ipv6, addrs[1..], script[1..]);
        DecidedNext(addrs, later, script[0], Verdicts(script[1..]));
      }
    }
  }

  lemma DecidedNext(addrs: seq<Family>, later: seq<seq<Family>>, c: ConnAnswer, verdicts: seq<ConnAnswer>)
    ensures Decided([addrs] + later, [c] + verdicts) ==
            if c == InProgress then Connecting(addrs) else if c == Immediate then Connected(addrs)
            else Decided(later, verdicts)
  {
    assert ([c] + verdicts)[1..] == verdicts;
  }

  /** Once an address has been found, closure is waited for, and writability; on an open connection input too.
      Without one the timer runs. */
  lemma TryConnectExactly(t: Tunnel, script: seq<ConnAnswer>)
    requires Sound(t) && !t.sock
    ensures Ends(TryConnect(t, script), t, Decided(Starts(t.ipv4, t.ipv6, t.addrs), Verdicts(script)))
  {
    hide Sound, Connect, Starts, Verdicts, Decided, Partial, Ends;
    ConnectExactly(t.ipv4, t.ipv6, t.addrs, script);
    match Connect(t.ipv4, t.ipv6, t.addrs, script)
    case Exhausted => GivesUp(t);
    case Connecting(addrs) => Opens(t, {EvOut, EvHup}, addrs);
    case Connected(addrs) => Opens(t, ALL_EVENTS, addrs);
  }

  /** The state in which an attempt to connect leaves the connection. */
  predicate Ends(u: Tunnel, t: Tunnel, a: Attempt) {
    && u.chans == t.chans && u.waiting == t.waiting && u.sent == t.sent
    && u.lookup == t.lookup && u.timerDue == t.timerDue && u.writable == t.writable
    && match a
       case Exhausted => !u.sock && u.addrs == [] && u.timerSet && u.watch == t.watch && u.connected == t.connected
       case Connecting(addrs) =>
         u.sock && u.addrs == addrs && u.timerSet == t.timerSet && u.connected == t.connected
         && u.watch == Watch(true, {EvOut, EvHup}, {}, false)
       case Connected(addrs) =>
         u.sock && u.addrs == addrs && u.timerSet == t.timerSet && u.connected
         && u.watch == Watch(true, {EvOut, EvHup, EvIn}, {}, false)
  }

  lemma GivesUp(t: Tunnel)
    requires !t.sock
    ensures Ends(t.(addrs := [], timerSet := true), t, Exhausted)
  {
  }

  lemma Opens(t: Tunnel, evs: set<Ev>, addrs: seq<Family>)
    requires Sound(t)
    ensures evs == {EvOut, EvHup} ==> Ends(Opened(t, evs).(addrs := addrs), t, Connecting(addrs))
    ensures evs == ALL_EVENTS ==> Ends(Opened(t, evs).(addrs := addrs, connected := true), t, Connected(addrs))
  {
    hide Sound, Partial;
  }

  // ---------- how a call to send ends ----------

  /** Everything that waited has had its turn. */
  predicate AllSent(u: Tunnel, t: Tunnel) {
    u.waiting == [] && u.sock && u.watch == t.watch && u.timerSet == t.timerSet
  }

  /** The socket takes no more for the present, and will tell when it does. */
  predicate NowBlocked(u: Tunnel, t: Tunnel) {
    && u.waiting != [] && u.sock && !u.writable && u.watch == Watch(true, {EvOut, EvHup, EvIn}, {}, false)
    && u.timerSet == t.timerSet
  }

  /** The connection is given up, and the timer runs; the source that was sending starts again. */
  predicate NowBroken(u: Tunnel) {
    && u.waiting != [] && u.waiting[0] < |u.chans| && !u.chans[u.waiting[0]].held
    && !u.sock && !u.writable && !u.watch.on && !u.watch.queued && u.timerSet
  }

  lemma TurnEnds(t: Tunnel, script: seq<Answer>)
    requires Sound(t) && t.waiting != [] && t.sock
    ensures var turn := LoopTurn(t, script);
            && (turn.Again? ==> turn.t.sock && turn.t.watch == t.watch && turn.t.timerSet == t.timerSet)
            && (turn.Again? ==>
                  turn.script == script || (script != [] && script[0].Took? && turn.script == script[1..]))
            && (turn.Stop? ==> if script != [] && script[0] == Broken then NowBroken(turn.t) else NowBlocked(turn.t, t))
            && (turn.Stop? ==> script == [] || !script[0].Took?)
            && SameRest(turn.t, t)
  {
    hide Described, TookSome, Block, Break, Skip, Sound, HeadHeld, NowBroken;
    DescribedSound(t);
    DescribedLink(t);
    var d := Described(t);
    if HeadHeld(d) {
      StopEnds(d);
      if script != [] && script[0].Took? { TookLink(d, script[0].n); }
    } else {
      SkipLink(d);
    }
  }

  predicate SameWatch(u: Tunnel, t: Tunnel) {
    u.sock == t.sock && u.watch == t.watch && u.timerSet == t.timerSet && SameRest(u, t)
  }

  /** Sending does not touch these. */
  predicate SameRest(u: Tunnel, t: Tunnel) {
    && u.connected == t.connected && u.lookup == t.lookup && u.timerDue == t.timerDue && u.addrs == t.addrs
    && u.mark == t.mark && u.lead == t.lead && |u.chans| == |t.chans|
  }

  lemma DescribedLink(t: Tunnel)
    requires Sound(t) && t.waiting != []
    ensures SameWatch(Described(t), t) && Described(t).waiting == t.waiting
  {
    hide Sound, ChanValid, Describe, SetFirst;
    SetFirstIs(t, Describe(FirstChan(t)));
  }

  lemma SkipLink(t: Tunnel)
    requires t.waiting != []
    ensures SameWatch(Skip(t), t)
  {
  }

  lemma TookLink(t: Tunnel, n: nat)
    requires Sound(t) && HeadHeld(t)
    ensures SameWatch(TookSome(t, n), t)
  {
    hide Sound, TookSome, Consumed, Offer, Good, HeadHeld;
    HeldFirst(t);
    FirstChanIs(t);
    TookShape(t, n);
  }

  lemma StopEnds(t: Tunnel)
    requires Sound(t) && HeadHeld(t) && t.waiting != []
    ensures t.sock ==> NowBlocked(Block(t), t)
    ensures NowBroken(Break(t)) && SameRest(Block(t), t) && SameRest(Break(t), t)
  {
    hide Sound, ChanValid, Consumed, SetFirst, Offer, HeadHeld;
    HeldFirst(t);
    FirstChanIs(t);
    SetFirstIs(t, Consumed(FirstChan(t), 0));
    SetFirstIs(t, Failed(FirstChan(t)));
  }

  /** How many answers it takes to the first that is not an acceptance. */
  function Accepted(script: seq<Answer>): nat {
    if script == [] || !script[0].Took? then 0 else 1 + Accepted(script[1..])
  }

  /** A call ends in one of three ways; by an error only if that is the first answer that is not an acceptance. */
  lemma {:induction false} LoopEnds(t: Tunnel, script: seq<Answer>)
    requires Sound(t) && t.sock
    ensures var u, k := SendLoop(t, script), Accepted(script);
            && SameRest(u, t)
            && (AllSent(u, t) || if k < |script| && script[k] == Broken then NowBroken(u) else NowBlocked(u, t))
    decreases |t.waiting|, Pending(t)
  {
    hide Sound, Pending, LoopTurn;
    if t.waiting == [] {
    } else {
      TurnEnds(t, script);
      var turn := LoopTurn(t, script);
      if turn.Again? {
        LoopProgress(t, script);
        LoopEnds(turn.t, turn.script);
      }
    }
  }

  // ---------- the handlers ----------

  /** A call to send has been made with a writable socket. */
  ghost predicate Tried(u: Tunnel, t: Tunnel, script: seq<Answer>) {
    var k := Accepted(script);
    && SameRest(u, t)
    && (AllSent(u, t) || if k < |script| && script[k] == Broken then NowBroken(u) else NowBlocked(u, t))
  }

  /** The descriptor's handler: closure, or an error, on a connecting socket makes it go on with the address after
      this one; closure of an open connection makes it wait for the timer; a connecting socket without an error is
      connected, and is waited for again; and a connected one is written to. */
  lemma DescriptorExactly(t: Tunnel, soerr: bool, script: seq<Answer>, conns: seq<ConnAnswer>)
    requires Sound(t) && t.sock && t.addrs != []
    ensures var u := DescriptorReady(t, soerr, script, conns);
            var closing := EvHup in t.watch.got || EvIn in t.watch.got;
            var gone := t.(sock := false, watch := t.watch.(on := false, queued := false));
            if !t.connected && (closing || soerr) then
              Ends(u, gone, Decided(Starts(t.ipv4, t.ipv6, t.addrs[1..]), Verdicts(conns)))
            else if closing then u == gone.(timerSet := true)
            else if !t.connected then u == t.(connected := true, watch := Watch(true, {EvOut, EvHup, EvIn}, {}, false))
            else Tried(u, t.(watch := t.watch.(queued := false)), script)
  {
    hide Sound, TrySend, NextAddress, Ends, Decided, Starts, Verdicts, Tried;
    var r := t.(watch := t.watch.(queued := false));
    SoundLess(t, r);
    if t.connected {
      WritableTried(r, script);
    } else {
      NextEnds(r, conns);
    }
  }

  lemma WritableTried(t: Tunnel, script: seq<Answer>)
    requires Sound(t) && t.sock && t.connected
    ensures Sound(t.(writable := true)) && Tried(TrySend(t.(writable := true), script), t, script)
  {
    hide Sound, SendLoop;
    var w := t.(writable := true);
    SoundLess(t, w);
    LoopEnds(w, script);
  }

  lemma NextEnds(t: Tunnel, conns: seq<ConnAnswer>)
    requires Sound(t) && t.addrs != [] && !t.watch.queued
    ensures Ends(NextAddress(t, conns), t.(sock := false, watch := t.watch.(on := false)),
                 Decided(Starts(t.ipv4, t.ipv6, t.addrs[1..]), Verdicts(conns)))
  {
    hide Sound, TryConnect, Ends, Decided, Starts, Verdicts;
    var c := ClearSocket(t.(addrs := t.addrs[1..]));
    SoundLess(t, c);
    TryConnectExactly(c, conns);
    SameEnds(TryConnect(c, conns), c, c.(addrs := t.addrs), Decided(Starts(t.ipv4, t.ipv6, c.addrs), Verdicts(conns)));
  }

  lemma SameEnds(u: Tunnel, t: Tunnel, s: Tunnel, a: Attempt)
    requires Ends(u, t, a) && s == t.(addrs := s.addrs)
    ensures Ends(u, s, a)
  {
  }

  /** A source that is waiting already changes nothing; another joins the end, and if it is the first, a socket
      that can be written to is, one that cannot is waited for, and without one a lookup is begun, unless one is under
      way or the timer runs. */
  lemma ReadyExactly(t: Tunnel, i: nat, script: seq<Answer>)
    requires Sound(t) && i < |t.chans|
    ensures var r, u := SourceReady(t, i, script), t.(waiting := t.waiting + [i]);
            if i in t.waiting then r == t
            else if t.waiting != [] || (if t.sock then !t.connected else t.timerSet || t.lookup) then r == u
            else if !t.sock then r == u.(addrs := [], lookup := true)
            else if !t.writable then r == u.(watch := Watch(true, {EvOut, EvHup, EvIn}, {}, false))
            else Tried(r, u, script)
  {
    hide ChanValid, SendLoop, NowBlocked, NowBroken;
    if i !in t.waiting && t.waiting == [] && t.sock && t.connected && t.writable {
      LoopEnds(t.(waiting := t.waiting + [i]), script);
    }
  }

  /** What the scheduler, the kernel and the resolver bring about. */
  lemma LinkExactly(t: Tunnel, e: Event)
    requires Sound(t) && Enabled(t, e) && (e.Reported? || e.TimerExpired? || e.TimerNotified? || e.LookedUp?)
    ensures var u := Step(t, e);
            match e
            case Reported(evs) =>
              u == t.(watch := Watch(true, t.watch.expected - evs, t.watch.got + evs, true))
            case TimerExpired => u == t.(timerSet := false, timerDue := true)
            case TimerNotified => u == t.(timerDue := false, addrs := [], lookup := true)
            case LookedUp(addrs, conns) =>
              Ends(u, t.(lookup := false, connected := false), Decided(Starts(t.ipv4, t.ipv6, addrs), Verdicts(conns)))
  {
    hide Sound, TryConnect, Ends, Decided, Starts, Verdicts, Presents;
    if e.LookedUp? {
      var r := t.(lookup := false, addrs := e.addrs, connected := false);
      SoundLess(t, r);
      TryConnectExactly(r, e.conns);
      SameEnds(TryConnect(r, e.conns), r, r.(addrs := t.addrs),
               Decided(Starts(t.ipv4, t.ipv6, e.addrs), Verdicts(e.conns)));
    }
  }

  /** A channel that is woken is no longer pending, and is ready as a source. */
  lemma WokenExactly(t: Tunnel, i: nat, script: seq<Answer>)
    requires Sound(t) && Enabled(t, Woken(i, script))
    ensures var c := t.(chans := t.chans[i := t.chans[i].(pending := false)]);
            Sound(c) && Step(t, Woken(i, script)) == SourceReady(c, i, script)
  {
    hide Sound, SourceReady, Presents, ChanValid;
    FirstValidChan(t, i);
    NotPending(t.chans[i]);
    SetChanSound(t, i, t.chans[i].(pending := false));
  }

  // ---------- closure is always noticed ----------

  /** An open socket will be reported closed, or has been and its handler has yet to run; and on a connection, so
      will anything that the peer sends. */
  predicate Attentive(t: Tunnel) {
    t.sock ==> EvHup in t.watch.expected + t.watch.got && (t.connected ==> EvIn in t.watch.expected + t.watch.got)
  }

  lemma TriedAttentive(u: Tunnel, t: Tunnel, script: seq<Answer>)
    requires Tried(u, t, script) && Attentive(t) && t.sock
    ensures Attentive(u)
  {
  }

  lemma EndsAttentive(u: Tunnel, t: Tunnel, a: Attempt)
    requires Ends(u, t, a) && !t.connected && !t.sock
    ensures Attentive(u)
  {
  }

  lemma StepAttentive(t: Tunnel, e: Event)
    requires Sound(t) && Enabled(t, e) && Attentive(t)
    ensures Attentive(Step(t, e))
  {
    hide Sound, SourceReady, DescriptorReady, TryConnect, Submit, Activate, ChanValid, Presents, SendLoop, Good, Ends,
      Tried;
    match e
    case Woken(i, script) =>
      var c := t.(chans := t.chans[i := t.chans[i].(pending := false)]);
      FirstValidChan(t, i);
      NotPending(t.chans[i]);
      SetChanSound(t, i, t.chans[i].(pending := false));
      ReadyAttentive(c, i, script);
    case Notified(soerr, script, conns) => NotifiedAttentive(t, soerr, script, conns);
    case LookedUp(addrs, conns) =>
      var r := t.(lookup := false, addrs := addrs, connected := false);
      SoundLess(t, r);
      TryConnectExactly(r, conns);
      EndsAttentive(TryConnect(r, conns), r, Decided(Starts(r.ipv4, r.ipv6, r.addrs), Verdicts(conns)));
    case _ =>
  }

  lemma FirstValidChan(t: Tunnel, i: nat)
    requires Sound(t) && i < |t.chans|
    ensures ChanValid(t.chans[i])
  {
    hide ChanValid;
  }

  lemma ReadyAttentive(t: Tunnel, i: nat, script: seq<Answer>)
    requires Sound(t) && i < |t.chans| && Attentive(t)
    ensures Attentive(SourceReady(t, i, script))
  {
    hide ChanValid, SendLoop, Tried;
    ReadyExactly(t, i, script);
    if i !in t.waiting && t.waiting == [] && t.sock && t.connected && t.writable {
      var u := t.(waiting := t.waiting + [i]);
      TriedAttentive(SourceReady(t, i, script), u, script);
    }
  }

  lemma NotifiedAttentive(t: Tunnel, soerr: bool, script: seq<Answer>, conns: seq<ConnAnswer>)
    requires Sound(t) && t.sock && t.addrs != [] && Attentive(t)
    ensures Attentive(DescriptorReady(t, soerr, script, conns))
  {
    hide Sound, DescriptorReady, Tried, Ends, Decided, Starts, Verdicts, Attentive;
    DescriptorExactly(t, soerr, script, conns);
    var u := DescriptorReady(t, soerr, script, conns);
    if !t.connected && (Closing(t.watch.got) || soerr) {
      EndsAttentive(u, t.(sock := false, watch := t.watch.(on := false, queued := false)),
                    Decided(Starts(t.ipv4, t.ipv6, t.addrs[1..]), Verdicts(conns)));
    } else if t.connected && !Closing(t.watch.got) {
      StillAttentive(t);
      TriedAttentive(u, t.(watch := t.watch.(queued := false)), script);
    } else {
      AfreshAttentive(u);
    }
  }

  lemma StillAttentive(t: Tunnel)
    ensures Attentive(t.(watch := t.watch.(queued := false))) <==> Attentive(t)
  {
  }

  lemma AfreshAttentive(u: Tunnel)
    requires u.sock ==> u.watch.expected == {EvOut, EvHup, EvIn}
    ensures Attentive(u)
  {
  }

  /** Over every run from the start, no closure of an open socket goes unnoticed. */
  lemma AlwaysAttentive(t: Tunnel, es: seq<Event>)
    requires Initial(t) && Executes(t, es)
    ensures Attentive(After(t, es))
  {
    RunAttentive(t, es);
  }

  lemma {:induction false} RunAttentive(t: Tunnel, es: seq<Event>)
    requires Attentive(t) && Executes(t, es)
    ensures Attentive(After(t, es))
    decreases |es|
  {
    hide Sound, Step, Enabled, Attentive;
    if es == [] {
    } else {
      StepAttentive(t, es[0]);
      RunAttentive(Step(t, es[0]), es[1..]);
    }
  }
}
