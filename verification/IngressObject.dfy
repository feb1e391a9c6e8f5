// The sending end of a tunnel as an object (tcp_ingress.cc): each handler, on the fields and the
// channels, does what Tunnel says.
module IngressObjects {
  import opened Basics
  import opened Wire
  import opened SpillQueue
  import opened Channels
  import opened ChannelFacts
  import opened ChannelObjects
  import opened Tunnel
  import opened TunnelLinks
  import opened TunnelRuns

  class TCPIngress {
    const ipv4: bool
    const ipv6: bool
    ghost const channels: seq<Channel>  // every channel that sends through this
    var streamers: set<Channel>
    var streamerQueue: seq<Channel>
    var sock: bool
    var connected: bool
    var upoutReady: bool
    var fdev: Watch
    var rstevSet: bool
    var rstevDue: bool
    var lookup: bool
    var ainf: seq<Family>
    ghost var sent: seq<Sent>
    ghost var mark: nat
    ghost var lead: Bytes
    ghost var wire: Bytes

    ghost function Footprint(): set<object> {
      (set c | c in channels :: c as object) + (set c, o | c in channels && o in c.Owned() :: o)
    }

    lemma InFootprint(c: Channel)
      requires c in channels
      ensures {c, c.queue, c.clids, c.labels, c.lenword} <= Footprint()
    {
      assert c.queue in c.Owned() && c.clids in c.Owned() && c.labels in c.Owned() && c.lenword in c.Owned();
    }

    lemma NotMine()
      ensures this !in Footprint()
    {
    }

    /** Channels are known by their ids and share nothing; the set and the queue of sources agree. */
    ghost predicate Ok()
      reads this, channels, set c | c in channels :: c.queue
    {
      && (forall i :: 0 <= i < |channels| ==> channels[i].id == i && channels[i].Ok())
      && (forall i, j :: 0 <= i < j < |channels| ==> channels[i].queue != channels[j].queue)
      && (forall k :: 0 <= k < |streamerQueue| ==>
            streamerQueue[k].id < |channels| && channels[streamerQueue[k].id] == streamerQueue[k])
      && streamers == (set c | c in streamerQueue)
      && (forall j, k :: 0 <= j < k < |streamerQueue| ==> streamerQueue[j] != streamerQueue[k])
    }

    ghost function Views(): seq<Chan>
      reads channels, set c | c in channels :: c.queue
    {
      seq(|channels|, i requires 0 <= i < |channels|
                        reads channels, set c | c in channels :: c.queue => channels[i].View())
    }

    ghost function Ids(): seq<nat>
      reads this
    {
      seq(|streamerQueue|, k requires 0 <= k < |streamerQueue| reads this => streamerQueue[k].id)
    }

    ghost function State(): Tunnel
      reads this, channels, set c | c in channels :: c.queue
    {
      Tunnel(ipv4, ipv6, Views(), Ids(), sock, connected, upoutReady, fdev, rstevSet, rstevDue, lookup, ainf,
             sent, mark, lead, wire)
    }

    lemma Sizes()
      ensures |Ids()| == |streamerQueue| && |Views()| == |channels|
    {
    }

    lemma FirstKnown()
      requires Ok() && streamerQueue != []
      ensures streamerQueue[0] in channels && streamerQueue[0].id < |channels| && streamerQueue[0].Ok()
      ensures Ids()[0] == streamerQueue[0].id && Views()[streamerQueue[0].id] == streamerQueue[0].View()
    {
    }

    /** Only one channel, and what it owns, has changed. */
    twostate lemma OneChanged(src: Channel)
      requires old(Ok()) && src in channels && src.Ok() && unchanged(this)
      requires forall c :: c in channels && c != src ==> unchanged(c) && unchanged(c.queue)
      ensures Ok() && src.id < |channels|
      ensures State() == old(State()).(chans := old(Views())[src.id := src.View()])
    {
      forall i | 0 <= i < |channels| && i != src.id
        ensures channels[i].Ok() && channels[i].View() == old(channels[i].View())
      {
        assert channels[i] in channels && channels[i] != src;
      }
      assert Views() == old(Views())[src.id := src.View()];
      assert Ids() == old(Ids());
    }

    lemma Others(src: Channel)
      requires Ok() && src in channels
      ensures forall c :: c in channels && c != src ==> c.queue != src.queue
    {
    }

    /** The first source presents what it has. */
    method DescribeFirst() returns (ok: bool, iov: seq<Bytes>)
      requires Ok() && Sound(State()) && streamerQueue != [] && |State().waiting| > 0 && TurnPresents(State())
      modifies Footprint()
      ensures Ok() && Sound(State()) && State() == Described(old(State()))
      ensures ok <==> HeadHeld(State())
      ensures ok ==> Flatten(iov) == Offer(FirstChan(State()))
    {
      hide ChanValid, Describe, Ok, Views, Ids, Footprint, Sound, Offer;
      Sizes();
      FirstKnown();
      var src := streamerQueue[0];
      InFootprint(src);
      Others(src);
      DescribedSound(State());
      FirstValid(State());
      ok, iov := src.DescribeInto();
      OneChanged(src);
      SetFirstSound(old(State()), src.View());
    }

    lemma FirstValid(t: Tunnel)
      requires Sound(t) && t.waiting != []
      ensures t.waiting[0] < |t.chans| && FirstChan(t) == t.chans[t.waiting[0]] && ChanValid(FirstChan(t))
    {
      hide ChanValid;
    }

    method AcknowledgeFirst(n: nat) returns (all: bool)
      requires Ok() && Sound(State()) && HeadHeld(State()) && n <= |Offer(FirstChan(State()))|
      modifies Footprint()
      ensures Ok() && Sound(State()) && State() == SetFirst(old(State()), Consumed(FirstChan(old(State())), n))
      ensures all <==> !HeadHeld(State())
    {
      hide ChanValid, Consumed, Offer, Ok, Views, Ids, Footprint, Sound;
      Sizes();
      FirstKnown();
      var src := streamerQueue[0];
      InFootprint(src);
      Others(src);
      FirstValid(State());
      all := src.Acknowledge(n);
      OneChanged(src);
      SetFirstSound(old(State()), src.View());
    }

    method FailFirst()
      requires Ok() && Sound(State()) && HeadHeld(State())
      modifies Footprint()
      ensures Ok() && Sound(State()) && State() == SetFirst(old(State()), Failed(FirstChan(old(State()))))
    {
      hide ChanValid, Ok, Views, Ids, Footprint, Sound;
      Sizes();
      FirstKnown();
      var src := streamerQueue[0];
      InFootprint(src);
      Others(src);
      FirstValid(State());
      src.Fail();
      OneChanged(src);
      FailedValid(FirstChan(old(State())));
      SetFirstSound(old(State()), src.View());
    }

    method DropFirst()
      requires Ok() && Sound(State()) && streamerQueue != []
      modifies this`streamers, this`streamerQueue
      ensures Ok() && Sound(State()) && |old(Ids())| > 0 && State() == Skip(old(State()))
    {
      hide ChanValid, Sound;
      streamers := streamers - {streamerQueue[0]};
      streamerQueue := streamerQueue[1..];
      assert Ids() == old(Ids())[1..];
      SoundLess(old(State()), State());
    }

    /** Only fields of the connection have changed. */
    twostate lemma SameSources()
      requires old(Ok()) && streamers == old(streamers) && streamerQueue == old(streamerQueue)
      requires forall c :: c in channels ==> unchanged(c) && unchanged(c.queue)
      ensures Ok() && Views() == old(Views()) && Ids() == old(Ids())
      ensures old(Sound(State())) ==> Sound(State())
    {
      forall i | 0 <= i < |channels| ensures channels[i].Ok() && channels[i].View() == old(channels[i].View()) {
        assert channels[i] in channels;
      }
      assert Views() == old(Views());
      assert Ids() == old(Ids());
    }

    method CloseSocket()
      requires Ok() && Sound(State())
      modifies this`fdev, this`sock
      ensures Ok() && Sound(State()) && State() == ClearSocket(old(State()))
    {
      hide Ok, Views, Ids, Sound;
      fdev := fdev.(on := false, queued := false);
      sock := false;
      SameSources();
    }

    /** The send was refused for the present: ask to be told when to go on. */
    method BlockFirst()
      requires Ok() && Sound(State()) && HeadHeld(State())
      modifies this`upoutReady, this`fdev, Footprint()
      ensures Ok() && Sound(State()) && State() == Block(old(State()))
    {
      hide Ok, Views, Ids, Sound, Footprint, SetFirst, Consumed, Offer, HeadHeld;
      var all := AcknowledgeFirst(0);
      label Acknowledged:
      upoutReady := false;
      fdev := Watching(ALL_EVENTS);
      SameSources@Acknowledged();
    }

    /** The send failed: the source will start its message again, on another connection. */
    method BreakFirst()
      requires Ok() && Sound(State()) && HeadHeld(State())
      modifies this`upoutReady, this`fdev, this`sock, this`rstevSet, Footprint()
      ensures Ok() && Sound(State()) && State() == Break(old(State()))
    {
      hide Ok, Views, Ids, Sound, Footprint, SetFirst, HeadHeld;
      FailFirst();
      CloseSocket();
      label Closed:
      upoutReady := false;
      rstevSet := true;
      SameSources@Closed();
    }

    /** Some of what was offered was accepted. */
    method AcceptFirst(iov: seq<Bytes>, k: nat) returns (all: bool)
      requires Ok() && Sound(State()) && HeadHeld(State())
      requires Flatten(iov) == Offer(FirstChan(State())) && k <= |Flatten(iov)|
      modifies this`upoutReady, this`wire, Footprint()
      ensures Ok() && Sound(State())
      ensures State() == SetFirst(old(State()), Consumed(FirstChan(old(State())), k))
                           .(writable := false, wire := old(wire) + Flatten(iov)[..k])
      ensures all <==> !Consumed(FirstChan(old(State())), k).held
    {
      hide Ok, Views, Ids, Sound, Footprint, SetFirst, Consumed, Offer, HeadHeld;
      ghost var was := State();
      HeadIsHeld(was);
      FirstValid(was);
      ConsumedEffect(FirstChan(was), k);
      SetFirstSound(was, Consumed(FirstChan(was), k));
      all := AcknowledgeFirst(k);
      label Acknowledged:
      upoutReady := false;
      wire := wire + Flatten(iov)[..k];
      SameSources@Acknowledged();
    }

    /** The source leaves the queue if everything that it offered was accepted. */
    method TakeFirst(iov: seq<Bytes>, n: nat) returns (all: bool)
      requires Ok() && Sound(State()) && HeadHeld(State()) && Flatten(iov) == Offer(FirstChan(State()))
      modifies this`streamers, this`streamerQueue, this`upoutReady, this`sent, this`wire, Footprint()
      ensures Ok() && Sound(State()) && State() == TookSome(old(State()), n)
    {
      hide Ok, Views, Ids, Sound, Footprint, Consumed, Offer, HeadHeld, Encode;
      ghost var was := State();
      HeadIsHeld(was);
      Sizes();
      NotMine();
      TookShape(was, n);
      ghost var c := FirstChan(was);
      all := AcceptFirst(iov, Clip(n, |Flatten(iov)|));
      if all {
        FinishFirst(Sent(was.waiting[0], c.tag, c.q.mem[0]));
      }
    }

    /** A message is complete. */
    method FinishFirst(ghost x: Sent)
      requires Ok() && Sound(State()) && streamerQueue != []
      modifies this`streamers, this`streamerQueue, this`sent
      ensures Ok() && Sound(State()) && |old(Ids())| > 0
      ensures State() == old(State()).(waiting := old(Ids())[1..], sent := old(sent) + [x])
    {
      hide Ok, Views, Ids, Sound;
      Sizes();
      sent := sent + [x];
      SameSources();
      DropFirst();
    }

    lemma HeadIsHeld(t: Tunnel)
      requires Sound(t)
      ensures HeadHeld(t) ==> t.waiting != [] && FirstChan(t).held
    {
      hide ChanValid;
    }

    /** Sends from the sources, in turn, until there is nothing left to send or no more can be. */
    method TrySendNow(script: seq<Answer>)
      requires Ok() && Sound(State()) && sock && connected && SendPresents(State(), script)
      modifies this, Footprint()
      ensures Ok() && Sound(State()) && State() == TrySend(old(State()), script)
    {
      hide ChanValid, Ok, Views, Ids, Footprint, Sound, HeadHeld, Offer, Described, TookSome, Block, Break, Pending,
        TurnPresents;
      ghost var start := State();
      if !upoutReady {
        fdev := Watching(ALL_EVENTS);
        SameSources();
        return;
      }
      var left := script;
      var more := true;
      Sizes();
      while more && streamerQueue != []
        invariant Ok() && Sound(State())
        invariant SendLoop(start, script) == if more then SendLoop(State(), left) else State()
        invariant more ==> LoopPresents(State(), left)
        decreases more, |streamerQueue|, Pending(State())
      {
        Sizes();
        ghost var was := State();
        ghost var turn := LoopTurn(was, left);
        if turn.Again? { LoopProgress(was, left); }
        DescribedSound(was);
        var ok, iov := DescribeFirst();
        if !ok {
          Sizes();
          DropFirst();
        } else if left == [] || left[0] == Blocked {
          BlockFirst();
          more := false;
        } else if left[0] == Broken {
          BreakFirst();
          more := false;
        } else {
          var all := TakeFirst(iov, left[0].n);
          left := left[1..];
        }
        Sizes();
      }
      Sizes();
    }

    // ---------- connecting ----------

    /** Goes through the addresses until one gives a socket, or sets the timer to try again. */
    method TryConnectNow(script: seq<ConnAnswer>)
      requires Ok() && Sound(State()) && !sock
      modifies this`sock, this`connected, this`fdev, this`ainf, this`rstevSet, this`mark, this`lead, this`wire
      ensures Ok() && Sound(State()) && State() == TryConnect(old(State()), script)
    {
      hide Ok, Views, Ids, Sound, Partial, Connect, TryConnect, Begun;
      ghost var was := State();
      var immediate := FindSocket(script);
      SameSources();
      Begin(immediate, Partial(was));
      ConnectCases(was, script, sock, ainf, immediate);
    }

    /** A new connection begins, perhaps with part of a message already sent on another; or, without
        a socket, the timer is set. */
    method Begin(immediate: bool, ghost before: Bytes)
      requires Ok() && Sound(State())
      modifies this`connected, this`fdev, this`rstevSet, this`mark, this`lead, this`wire
      ensures Ok() && Sound(State())
      ensures State() == Begun(old(State()), immediate, before)
    {
      hide Ok, Views, Ids, Sound;
      if !sock {
        rstevSet := true;
      } else {
        if immediate {
          connected := true;
          fdev := Watching(ALL_EVENTS);
        } else {
          fdev := Watching({EvOut, EvHup});
        }
        mark, lead, wire := |sent|, before, [];
      }
      SameSources();
    }

    /** Tries to connect from each address in turn; the same one again if it could not be bound. */
    method FindSocket(script: seq<ConnAnswer>) returns (immediate: bool)
      requires !sock
      modifies this`sock, this`ainf
      ensures Connect(ipv4, ipv6, old(ainf), script)
              == if !sock then Exhausted else if immediate then Connected(ainf) else Connecting(ainf)
      ensures !sock ==> ainf == []
    {
      var left := script;
      while true
        invariant !sock
        invariant Connect(ipv4, ipv6, old(ainf), script) == Connect(ipv4, ipv6, ainf, left)
        decreases |ainf|, |left|
      {
        left := NextSocket(left);
        if !sock {
          return false;
        }
        if left != [] && left[0] == BindFails {
          left := left[1..];
          sock := false;  // closed; fdev is not waiting for it yet
          continue;
        }
        if left == [] || left[0] == Refused {
          if left != [] { left := left[1..]; }
          sock := false;
          ainf := ainf[1..];
          continue;
        }
        return left[0] == Immediate;
      }
    }

    /** Moves on to the next address for which a socket can be created, if there is one. */
    method NextSocket(script: seq<ConnAnswer>) returns (left: seq<ConnAnswer>)
      requires !sock
      modifies this`sock, this`ainf
      ensures Connect(ipv4, ipv6, old(ainf), script) == Connect(ipv4, ipv6, ainf, left)
      ensures |ainf| <= |old(ainf)| && |left| <= |script|
      ensures !sock ==> ainf == []
      ensures sock ==> ainf != [] && !Excluded(ipv4, ipv6, ainf[0])
                       && (left != [] ==> left[0] != NoBind && left[0] != NoSocket)
    {
      left := script;
      while ainf != []
        invariant !sock && |ainf| <= |old(ainf)| && |left| <= |script|
        invariant Connect(ipv4, ipv6, old(ainf), script) == Connect(ipv4, ipv6, ainf, left)
        decreases |ainf|
      {
        if Excluded(ipv4, ipv6, ainf[0]) {
          ainf := ainf[1..];
        } else if left != [] && (left[0] == NoBind || left[0] == NoSocket) {
          left := left[1..];
          ainf := ainf[1..];
        } else {
          sock := true;
          return;
        }
      }
    }

    method InitiateLookupNow()
      requires Ok() && Sound(State()) && !rstevSet && !lookup && !sock
      modifies this`ainf, this`lookup
      ensures Ok() && Sound(State()) && State() == InitiateLookup(old(State()))
    {
      hide Ok, Views, Ids, Sound;
      ainf := [];
      lookup := true;
      SameSources();
    }

    /** The timer's handler. */
    method TimerReady()
      requires Ok() && Sound(State()) && Enabled(State(), TimerNotified)
      modifies this`rstevDue, this`ainf, this`lookup
      ensures Ok() && Sound(State()) && State() == Step(old(State()), TimerNotified)
    {
      hide Ok, Views, Ids, Sound;
      rstevDue := false;
      SameSources();
      InitiateLookupNow();
    }

    method AddressesResolved(addrs: seq<Family>, conns: seq<ConnAnswer>)
      requires Ok() && Sound(State()) && Enabled(State(), LookedUp(addrs, conns))
      modifies this`sock, this`connected, this`fdev, this`ainf, this`rstevSet, this`lookup
      modifies this`mark, this`lead, this`wire
      ensures Ok() && Sound(State()) && State() == Step(old(State()), LookedUp(addrs, conns))
    {
      hide Ok, Views, Ids, Sound, TryConnect;
      lookup := false;
      ainf := addrs;
      connected := false;
      SameSources();
      TryConnectNow(conns);
    }

    /** The descriptor's handler.  Its assertions are part of the event's being enabled. */
    method DescriptorNotified(soerr: bool, script: seq<Answer>, conns: seq<ConnAnswer>)
      requires Ok() && Sound(State()) && Enabled(State(), Notified(soerr, script, conns))
      modifies this, Footprint()
      ensures Ok() && Sound(State()) && State() == DescriptorReady(old(State()), soerr, script, conns)
    {
      hide Ok, Views, Ids, Sound, Footprint, NextAddress, TrySend, SendPresents;
      var evs := fdev.got;
      fdev := fdev.(queued := false);
      SameSources();
      label Taken:
      if Closing(evs) {
        if !connected {
          assert soerr;
          TryNext(conns);
          return;
        }
        PeerClosed();
        return;
      }
      assert EvOut in evs;
      if !connected {
        if soerr {
          TryNext(conns);
          return;
        }
        connected := true;
        fdev := Watching(ALL_EVENTS);
        SameSources@Taken();
        return;
      }
      upoutReady := true;
      SameSources@Taken();
      TrySendNow(script);
    }

    /** The channel is not told: it will go on with its message on the next connection. */
    method PeerClosed()
      requires Ok() && Sound(State())
      modifies this`fdev, this`sock, this`rstevSet
      ensures Ok() && Sound(State()) && State() == ClearSocket(old(State())).(timerSet := true)
    {
      hide Ok, Views, Ids, Sound;
      CloseSocket();
      label Closed:
      rstevSet := true;
      SameSources@Closed();
    }

    method TryNext(conns: seq<ConnAnswer>)
      requires Ok() && Sound(State()) && ainf != []
      modifies this`sock, this`connected, this`fdev, this`ainf, this`rstevSet, this`mark, this`lead, this`wire
      ensures Ok() && Sound(State()) && State() == NextAddress(old(State()), conns)
    {
      hide Ok, Views, Ids, Sound, TryConnect;
      ainf := ainf[1..];
      SameSources();
      CloseSocket();
      TryConnectNow(conns);
    }

    /** A source has something to send. */
    method Ready(src: Channel, script: seq<Answer>)
      requires Ok() && Sound(State()) && src in channels
      requires src.id < |Views()| && ReadyPresents(State(), src.id, script)
      modifies this, Footprint()
      ensures Ok() && Sound(State()) && src.id < |channels| && State() == SourceReady(old(State()), src.id, script)
    {
      hide Views, Sound, Footprint, TrySend, SendPresents;
      Known(src);
      if src in streamers { return; }
      var wasEmpty := streamers == {};
      AddSource(src);
      if !wasEmpty { return; }
      if !sock {
        if rstevSet { return; }
        if lookup { return; }
        InitiateLookupNow();
        return;
      }
      if !connected { return; }
      assert [] + [src.id] == [src.id];
      TrySendNow(script);
    }

    lemma Known(src: Channel)
      requires Ok() && src in channels
      ensures src.id < |channels| && channels[src.id] == src
      ensures src in streamers <==> src.id in Ids()
      ensures streamers == {} <==> Ids() == []
    {
      if src.id in Ids() {
        var k :| 0 <= k < |Ids()| && Ids()[k] == src.id;
        assert streamerQueue[k] == src;
      }
      if src in streamers {
        var k :| 0 <= k < |streamerQueue| && streamerQueue[k] == src;
        assert Ids()[k] == src.id;
      }
      if streamerQueue != [] { assert streamerQueue[0] in streamers; }
    }

    method AddSource(src: Channel)
      requires Ok() && Sound(State()) && src in channels && src !in streamers
      modifies this`streamers, this`streamerQueue
      ensures Ok() && Sound(State()) && src.id < |channels|
      ensures State() == old(State()).(waiting := old(Ids()) + [src.id])
    {
      hide ChanValid;
      Known(src);
      streamers := streamers + {src};
      streamerQueue := streamerQueue + [src];
      assert Ids() == old(Ids()) + [src.id];
    }
  }

  function Begun(t: Tunnel, immediate: bool, before: Bytes): Tunnel {
    if !t.sock then t.(timerSet := true)
    else if immediate then
      t.(connected := true, watch := Watching(ALL_EVENTS), mark := |t.sent|, lead := before, wire := [])
    else
      t.(watch := Watching({EvOut, EvHup}), mark := |t.sent|, lead := before, wire := [])
  }

  lemma ConnectCases(t: Tunnel, script: seq<ConnAnswer>, sock: bool, addrs: seq<Family>, immediate: bool)
    requires Sound(t) && !t.sock && (!sock ==> addrs == [])
    requires Connect(t.ipv4, t.ipv6, t.addrs, script)
             == if !sock then Exhausted else if immediate then Connected(addrs) else Connecting(addrs)
    ensures Begun(t.(sock := sock, addrs := addrs), immediate, Partial(t)) == TryConnect(t, script)
  {
    hide Sound, Partial, Connect;
  }

  lemma FailedValid(c: Chan)
    requires ChanValid(c)
    ensures ChanValid(Failed(c))
  {
  }
}
