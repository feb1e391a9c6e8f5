// The connection side of the sending end (tcp_ingress.cc): what every event keeps, and exactly which
// events the assertions do not allow for.
module TunnelLinks {
  import opened Basics
  import opened Wire
  import opened Channels
  import opened Tunnel

  /** The socket will be reported writable, or has been and its handler is queued. */
  predicate AwaitsWrite(t: Tunnel) {
    EvOut in t.watch.expected || (t.watch.queued && EvOut in t.watch.got)
  }

  /** At most one of: an open socket, a lookup, the timer running, the timer's handler queued; and
      one of them whenever there is something to send. */
  predicate LinkInv(t: Tunnel) {
    && t.watch.on == t.sock
    && (t.sock ==> !t.lookup && !t.timerSet && !t.timerDue && t.addrs != [])
    && (t.lookup ==> !t.timerSet && !t.timerDue)
    && (t.timerSet ==> !t.timerDue)
    && (t.waiting != [] ==> t.sock || t.lookup || t.timerSet || t.timerDue)
    && (t.sock && (!t.connected || t.waiting != []) ==> AwaitsWrite(t))
    && (t.sock && t.watch.queued ==> t.watch.got != {})
    && (t.sock && !t.connected ==> t.wire == [])
  }

  /** While messages are being sent. */
  predicate Busy(t: Tunnel) {
    && t.sock && t.connected && t.watch.on && t.addrs != []
    && !t.lookup && !t.timerSet && !t.timerDue
    && (t.watch.queued ==> t.watch.got != {})
  }

  /** The parts of the state that sending does not touch. */
  predicate SameLink(t: Tunnel, u: Tunnel) {
    u == t.(chans := u.chans, waiting := u.waiting, writable := u.writable, sent := u.sent, wire := u.wire)
  }

  lemma TurnLink(t: Tunnel, script: seq<Answer>)
    requires Sound(t) && t.waiting != [] && Busy(t)
    ensures var turn := LoopTurn(t, script);
            && (turn.Again? ==> Busy(turn.t))
            && (turn.Stop? ==> LinkInv(turn.t))
  {
    hide ChanValid, Describe, Consumed, Offer;
    DescribedSound(t);
    assert SameLink(t, Described(t));
  }

  lemma {:induction false} LoopLink(t: Tunnel, script: seq<Answer>)
    requires Sound(t) && Busy(t)
    ensures LinkInv(SendLoop(t, script))
    decreases |t.waiting|, Pending(t)
  {
    hide Sound, Pending;
    if t.waiting == [] {
    } else {
      TurnLink(t, script);
      var turn := LoopTurn(t, script);
      if turn.Again? {
        LoopProgress(t, script);
        LoopLink(turn.t, turn.script);
      }
    }
  }

  lemma SendLink(t: Tunnel, script: seq<Answer>)
    requires Sound(t) && Busy(t)
    ensures LinkInv(TrySend(t, script))
  {
    LoopLink(t, script);
  }

  /** What is left of the addresses, when it is not nothing. */
  predicate EndOf(left: seq<Family>, addrs: seq<Family>) {
    left != [] && |left| <= |addrs| && left == addrs[|addrs| - |left|..]
  }

  lemma EndOfMore(left: seq<Family>, addrs: seq<Family>)
    requires addrs != []
    ensures EndOf(addrs, addrs) && (EndOf(left, addrs[1..]) ==> EndOf(left, addrs))
  {
  }

  predicate Usable(ipv4: bool, ipv6: bool, addrs: seq<Family>, a: Attempt) {
    !a.Exhausted? ==> EndOf(a.addrs, addrs) && (a.addrs[0] == V4 ==> ipv4) && (a.addrs[0] == V6 ==> ipv6)
  }

  lemma {:induction false} ConnectHasAddress(ipv4: bool, ipv6: bool, addrs: seq<Family>, script: seq<ConnAnswer>)
    ensures Usable(ipv4, ipv6, addrs, Connect(ipv4, ipv6, addrs, script))
    decreases |addrs|, |script|
  {
    if addrs == [] {
    } else {
      var a := Connect(ipv4, ipv6, addrs, script);
      if Excluded(ipv4, ipv6, addrs[0]) || script == [] {
        ConnectHasAddress(ipv4, ipv6, addrs[1..], script);
      } else if script[0] == BindFails {
        ConnectHasAddress(ipv4, ipv6, addrs, script[1..]);
      } else {
        ConnectHasAddress(ipv4, ipv6, addrs[1..], script[1..]);
      }
      EndOfMore(if a.Exhausted? then [] else a.addrs, addrs);
      hide EndOf;
    }
  }

  /** A failure to bind makes no headway: the attempt is where it was, however often it happens. */
  lemma {:induction false} BindFailureRepeats(ipv4: bool, ipv6: bool, addrs: seq<Family>, n: nat,
                                              script: seq<ConnAnswer>)
    requires addrs != [] && !Excluded(ipv4, ipv6, addrs[0])
    ensures Connect(ipv4, ipv6, addrs, seq(n, _ => BindFails) + script) == Connect(ipv4, ipv6, addrs, script)
  {
    var fails := seq(n, _ => BindFails);
    if n == 0 {
      assert fails + script == script;
    } else {
      assert (fails + script)[1..] == seq(n - 1, _ => BindFails) + script;
      BindFailureRepeats(ipv4, ipv6, addrs, n - 1, script);
    }
  }

  lemma ConnectLink(t: Tunnel, script: seq<ConnAnswer>)
    requires Sound(t) && !t.sock && !t.watch.on && !t.lookup && !t.timerSet && !t.timerDue && !t.connected
    ensures LinkInv(TryConnect(t, script))
  {
    hide ChanValid, Connect, Partial;
    ConnectHasAddress(t.ipv4, t.ipv6, t.addrs, script);
  }

  /** The one case in which a handler's assertion can fail later: a source becomes ready between
      the expiry of the timer and its handler, when nothing was waiting. */
  predicate OpensWindow(t: Tunnel, e: Event) {
    e.Woken? && t.timerDue && t.waiting == []
  }

  /** The peer closes a connection that it has just accepted: the socket is reported closed before
      the connection has been noticed, and has no error to show for it. */
  predicate ClosedEarly(t: Tunnel, e: Event) {
    e.Notified? && !t.connected && Closing(t.watch.got) && !e.soerr
  }

  /** The kernel reports an error on the socket and nothing else. */
  predicate ErrorOnly(t: Tunnel, e: Event) {
    e.Notified? && t.watch.got == {EvErr}
  }

  /** In a reachable state every assertion of every handler holds, except in these two events. */
  lemma AssertionsHold(t: Tunnel, e: Event)
    requires LinkInv(t) && Possible(t, e)
    ensures Asserts(t, e) <==> !ClosedEarly(t, e) && !ErrorOnly(t, e)
  {
    if e.Notified? && !Closing(t.watch.got) && EvOut !in t.watch.got {
      var ev: Ev :| ev in t.watch.got;
      assert forall x: Ev :: x in t.watch.got ==> x == EvErr;
      assert ev == EvErr && t.watch.got == {EvErr};
    }
  }

  lemma StepLink(t: Tunnel, e: Event)
    requires Sound(t) && LinkInv(t) && Enabled(t, e) && !OpensWindow(t, e)
    ensures LinkInv(Step(t, e))
  {
    hide ChanValid, Good, Submit, Activate, Presents;
    match e
    case Submitted(_, _, _, _, _) =>
    case Activated(_) =>
    case Woken(i, script) =>
      var c := t.chans[i].(pending := false);
      NotPending(t.chans[i]);
      SetChanSound(t, i, c);
      ReadyLink(t.(chans := t.chans[i := c]), i, script);
    case Reported(evs) =>
    case Notified(soerr, script, conns) => NotifiedLink(t, soerr, script, conns);
    case TimerExpired =>
    case TimerNotified =>
    case LookedUp(addrs, conns) =>
      ConnectLink(t.(lookup := false, addrs := addrs, connected := false), conns);
  }

  lemma NotPending(c: Chan)
    ensures ChanValid(c.(pending := false)) <==> ChanValid(c)
  {
    hide Good;
  }

  lemma ReadyLink(t: Tunnel, i: nat, script: seq<Answer>)
    requires Sound(t) && LinkInv(t) && i < |t.chans| && !(t.timerDue && t.waiting == [])
    ensures LinkInv(SourceReady(t, i, script))
  {
    hide ChanValid;
    if i !in t.waiting && t.waiting == [] && t.sock && t.connected {
      SendLink(t.(waiting := [i]), script);
      assert t.waiting + [i] == [i];
    }
  }

  lemma NotifiedLink(t: Tunnel, soerr: bool, script: seq<Answer>, conns: seq<ConnAnswer>)
    requires Sound(t) && LinkInv(t) && t.sock
    ensures LinkInv(DescriptorReady(t, soerr, script, conns))
  {
    hide Sound, TryConnect, TrySend, Partial;
    var r := t.(watch := t.watch.(queued := false));
    SoundLess(t, r);
    if !t.connected && (Closing(t.watch.got) || soerr) {
      var c := ClearSocket(r.(addrs := r.addrs[1..]));
      SoundLess(t, c);
      ConnectLink(c, conns);
    } else if t.connected && !Closing(t.watch.got) {
      SoundLess(t, r.(writable := true));
      SendLink(r.(writable := true), script);
    }
  }

  /** After the timer has expired, the assertions of its handler still hold after a source has
      become ready if and only if something was already waiting before. */
  lemma WindowExact(t: Tunnel, e: Event)
    requires Sound(t) && LinkInv(t) && t.timerDue && e.Woken? && Enabled(t, e)
    ensures Step(t, e).timerDue
    ensures Asserts(Step(t, e), TimerNotified) <==> !OpensWindow(t, e)
  {
    hide ChanValid, Presents;
  }
}
