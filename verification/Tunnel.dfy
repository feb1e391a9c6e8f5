// The sending end of a tunnel as a state machine (tcp_ingress.cc over channels.cc): each handler
// of TCPIngress, and each call into its channels, as a function of the state.
//
// What the operating system answers comes in as a script: one answer for each send or connection
// attempt, in order.  A script that has run out answers "would block" or "refused".
module Tunnel {
  import opened Basics
  import opened Wire
  import opened SpillQueue
  import opened Channels
  import opened ChannelFacts
  import opened QueueRuns

  datatype Ev = EvIn | EvOut | EvHup | EvErr  // EvHup is EPOLLHUP or EPOLLRDHUP

  /** A descriptor event: what it waits for, what has come, and whether its handler is queued. */
  datatype Watch = Watch(on: bool, expected: set<Ev>, got: set<Ev>, queued: bool)

  datatype Family = V4 | V6 | OtherFamily

  datatype Answer = Took(n: nat) | Blocked | Broken

  datatype ConnAnswer = NoBind | NoSocket | BindFails | Refused | InProgress | Immediate

  /** A message of which every byte has been accepted. */
  datatype Sent = Sent(chan: nat, tag: nat, entry: Bytes)

  datatype Tunnel = Tunnel(
    ipv4: bool, ipv6: bool,
    chans: seq<Chan>,
    waiting: seq<nat>,   // streamer_queue, by channel
    sock: bool,          // sock >= 0
    connected: bool,
    writable: bool,      // upout_ready
    watch: Watch,        // fdev
    timerSet: bool,      // rstev reads true
    timerDue: bool,      // rstev has expired, and its handler is queued
    lookup: bool,        // addrev reads true
    addrs: seq<Family>,  // ainf and what follows it
    // What has happened on connections:
    sent: seq<Sent>,     // every message completed, on this connection or before
    mark: nat,           // how many of them were completed before this connection
    lead: Bytes,         // what an earlier connection had of the message being sent when this one began
    wire: Bytes)         // the bytes that this connection has accepted

  // ---------- sending ----------

  predicate Sound(t: Tunnel) {
    && (forall i :: 0 <= i < |t.chans| ==> ChanValid(t.chans[i]))
    && (forall k :: 0 <= k < |t.waiting| ==> t.waiting[k] < |t.chans|)
  }

  predicate HeadHeld(t: Tunnel)
    requires Sound(t)
  {
    t.waiting != [] && t.chans[t.waiting[0]].held
  }

  function FirstChan(t: Tunnel): (c: Chan)
    requires Sound(t) && t.waiting != []
    ensures ChanValid(c)
  {
    t.chans[t.waiting[0]]
  }

  function SetFirst(t: Tunnel, c: Chan): Tunnel
    requires Sound(t) && t.waiting != []
  {
    t.(chans := t.chans[t.waiting[0] := c])
  }

  function Watching(evs: set<Ev>): Watch {
    Watch(true, evs, {}, false)
  }

  const ALL_EVENTS := {EvOut, EvHup, EvIn}

  function ClearSocket(t: Tunnel): Tunnel {
    t.(sock := false, watch := t.watch.(on := false, queued := false))
  }

  function Clip(n: nat, limit: nat): nat {
    if n < 1 then 1 else if n > limit then limit else n
  }

  function Described(t: Tunnel): Tunnel
    requires Sound(t) && t.waiting != []
  {
    SetFirst(t, Describe(FirstChan(t)))
  }

  /** The first source has nothing to send after all. */
  function Skip(t: Tunnel): Tunnel
    requires t.waiting != []
  {
    t.(waiting := t.waiting[1..])
  }

  /** Some of what was offered is accepted: at least a byte, at most all of it. */
  function TookSome(t: Tunnel, n: nat): Tunnel
    requires Sound(t) && HeadHeld(t)
  {
    var c := FirstChan(t);
    var k := Clip(n, |Offer(c)|);
    var d := Consumed(c, k);
    var u := SetFirst(t, d).(writable := false, wire := t.wire + Offer(c)[..k]);
    if d.held then u
    else u.(waiting := t.waiting[1..], sent := t.sent + [Sent(t.waiting[0], c.tag, c.q.mem[0])])
  }

  function Block(t: Tunnel): Tunnel
    requires Sound(t) && HeadHeld(t)
  {
    SetFirst(t, Consumed(FirstChan(t), 0)).(writable := false, watch := Watching(ALL_EVENTS))
  }

  function Break(t: Tunnel): Tunnel
    requires Sound(t) && HeadHeld(t)
  {
    ClearSocket(SetFirst(t, Failed(FirstChan(t)))).(writable := false, timerSet := true)
  }

  lemma SetFirstSound(t: Tunnel, c: Chan)
    requires Sound(t) && t.waiting != [] && ChanValid(c)
    ensures var u := SetFirst(t, c);
            Sound(u) && u == t.(chans := u.chans) && FirstChan(u) == c && (HeadHeld(u) <==> c.held)
  {
    hide ChanValid;
  }

  lemma DescribedSound(t: Tunnel)
    requires Sound(t) && t.waiting != []
    ensures Sound(Described(t)) && Described(t).waiting == t.waiting
  {
    hide ChanValid, Describe, SetFirst, Sound;
    DescribeEffect(FirstChan(t));
    SetFirstSound(t, Describe(FirstChan(t)));
  }

  lemma DescribedAgain(t: Tunnel)
    requires Sound(t) && t.waiting != [] && Sound(Described(t))
    ensures Described(Described(t)) == Described(t)
    ensures HeadHeld(t) ==> Described(t) == t
  {
    hide ChanValid, Describe;
    var c := FirstChan(t);
    DescribeEffect(c);
    DescribeAgain(c);
    var i, d := t.waiting[0], Describe(c);
    assert t.chans[i := d][i] == d;
    assert t.chans[i := d][i := d] == t.chans[i := d];
    assert t.chans[i := c] == t.chans;
  }

  lemma DescribeAgain(c: Chan)
    requires ChanValid(c)
    ensures Describe(Describe(c)) == Describe(c)
  {
    hide Valid, Contents, LoadHead;
    if !Describe(c).held {
      PeekAgain(c.q);
    }
  }

  lemma PeekAgain(q: Queue)
    requires Valid(q) && Peek(q).mem == []
    ensures Peek(Peek(q)) == Peek(q)
  {
    PeekEffect(q);
  }

  lemma SoundLess(t: Tunnel, u: Tunnel)
    requires Sound(t) && u.chans == t.chans
    requires u.waiting == t.waiting || (t.waiting != [] && u.waiting == t.waiting[1..])
    ensures Sound(u)
    ensures u.waiting == t.waiting ==> HeadHeld(u) == HeadHeld(t) && (t.waiting != [] ==> FirstChan(u) == FirstChan(t))
  {
    hide ChanValid;
  }

  lemma TookEffect(t: Tunnel, n: nat)
    requires Sound(t) && HeadHeld(t)
    ensures var u := TookSome(t, n);
            && Sound(u)
            && (u.waiting == t.waiting[1..]
                || (u.waiting == t.waiting && HeadHeld(u) && |Offer(FirstChan(u))| < |Offer(FirstChan(t))|))
  {
    hide ChanValid, Consumed, Encode, SetFirst, Sound, Offer;
    var c := FirstChan(t);
    OfferSize(c);
    var k := Clip(n, |Offer(c)|);
    var d := Consumed(c, k);
    ConsumedEffect(c, k);
    SetFirstSound(t, d);
    SoundLess(SetFirst(t, d), TookSome(t, n));
    if d.held { OfferSize(d); }
  }

  lemma OfferSize(c: Chan)
    requires ChanValid(c) && c.held
    ensures |Offer(c)| == |Encode(Head(c))| - c.done > 0
  {
    hide Encode, Good;
  }

  lemma HeldFirst(t: Tunnel)
    requires Sound(t) && HeadHeld(t)
    ensures t.waiting != [] && FirstChan(t).held && ChanValid(FirstChan(t))
  {
    hide ChanValid;
  }

  lemma FirstChanIs(t: Tunnel)
    requires Sound(t) && t.waiting != []
    ensures t.waiting[0] < |t.chans| && FirstChan(t) == t.chans[t.waiting[0]]
  {
    hide ChanValid;
  }

  lemma SetFirstIs(t: Tunnel, c: Chan)
    requires Sound(t) && t.waiting != []
    ensures t.waiting[0] < |t.chans| && SetFirst(t, c) == t.(chans := t.chans[t.waiting[0] := c])
  {
    hide ChanValid;
  }

  /** What the turn that ends the loop changes. */
  lemma StopShape(t: Tunnel)
    requires Sound(t) && HeadHeld(t) && t.waiting != [] && t.waiting[0] < |t.chans| && FirstChan(t).held
    ensures var u := Block(t);
            && u.chans == t.chans[t.waiting[0] := Consumed(FirstChan(t), 0)]
            && u.waiting == t.waiting && u.sent == t.sent
    ensures var u := Break(t);
            && u.chans == t.chans[t.waiting[0] := Failed(FirstChan(t))]
            && u.waiting == t.waiting && u.sent == t.sent
  {
    hide ChanValid, Consumed, Sound, HeadHeld, Offer;
  }

  /** The bytes that the first source will offer. */
  function Pending(t: Tunnel): nat
    requires Sound(t)
  {
    if t.waiting == [] then 0
    else
      DescribedSound(t);
      if HeadHeld(Described(t)) then |Offer(FirstChan(Described(t)))| else 0
  }

  /** One turn of the loop, which uses up an answer if there is something to send. */
  datatype Turn = Again(t: Tunnel, script: seq<Answer>) | Stop(t: Tunnel)

  function LoopTurn(t: Tunnel, script: seq<Answer>): Turn
    requires Sound(t) && t.waiting != []
  {
    DescribedSound(t);
    var d := Described(t);
    if !HeadHeld(d) then Again(Skip(d), script)
    else if script == [] || script[0] == Blocked then Stop(Block(d))
    else if script[0] == Broken then Stop(Break(d))
    else Again(TookSome(d, script[0].n), script[1..])
  }

  lemma LoopProgress(t: Tunnel, script: seq<Answer>)
    requires Sound(t) && t.waiting != [] && LoopTurn(t, script).Again?
    ensures var u := LoopTurn(t, script).t;
            Sound(u) && (|u.waiting| < |t.waiting| || (|u.waiting| == |t.waiting| && Pending(u) < Pending(t)))
  {
    hide ChanValid, Described, TookSome, Offer, Sound;
    DescribedSound(t);
    DescribedAgain(t);
    var d := Described(t);
    if HeadHeld(d) {
      TookEffect(d, script[0].n);
      if TookSome(d, script[0].n).waiting == d.waiting {
        DescribedSound(TookSome(d, script[0].n));
        DescribedAgain(TookSome(d, script[0].n));
      }
    } else {
      SoundLess(d, Skip(d));
    }
  }

  /** The loop of try_send: it ends because each turn drops a source or sends a byte. */
  function SendLoop(t: Tunnel, script: seq<Answer>): Tunnel
    requires Sound(t)
    decreases |t.waiting|, Pending(t)
  {
    if t.waiting == [] then t
    else
      match LoopTurn(t, script)
      case Stop(u) => u
      case Again(u, rest) =>
        LoopProgress(t, script);
        SendLoop(u, rest)
  }

  function TrySend(t: Tunnel, script: seq<Answer>): Tunnel
    requires Sound(t) && t.sock && t.connected
  {
    if t.writable then SendLoop(t, script) else t.(watch := Watching(ALL_EVENTS))
  }

  /** Whatever the first source presents can be presented. */
  predicate TurnPresents(t: Tunnel)
    requires Sound(t) && t.waiting != []
  {
    Describable(FirstChan(t))
  }

  predicate LoopPresents(t: Tunnel, script: seq<Answer>)
    requires Sound(t)
    decreases |t.waiting|, Pending(t)
  {
    t.waiting == [] ||
    (TurnPresents(t)
     && match LoopTurn(t, script)
        case Stop(_) => true
        case Again(u, rest) =>
          LoopProgress(t, script);
          LoopPresents(u, rest))
  }

  predicate SendPresents(t: Tunnel, script: seq<Answer>)
    requires Sound(t)
  {
    t.writable ==> LoopPresents(t, script)
  }

  // ---------- connecting ----------

  /** The part already sent of the message being sent. */
  function Partial(t: Tunnel): Bytes
    requires Sound(t)
  {
    if HeadHeld(t) then Encode(Head(FirstChan(t)))[..FirstChan(t).done] else []
  }

  /** A new connection begins. */
  function Opened(t: Tunnel, evs: set<Ev>): Tunnel
    requires Sound(t)
  {
    t.(sock := true, watch := Watching(evs), mark := |t.sent|, lead := Partial(t), wire := [])
  }

  predicate Excluded(ipv4: bool, ipv6: bool, f: Family) {
    (f == V4 && !ipv4) || (f == V6 && !ipv6)
  }

  /** Where the attempts end: with no entry left, or with a socket for the first of `addrs`. */
  datatype Attempt = Exhausted | Connecting(addrs: seq<Family>) | Connected(addrs: seq<Family>)

  /** Entries are tried in order until one gives a socket; a failure to bind tries the same entry
      again. */
  function Connect(ipv4: bool, ipv6: bool, addrs: seq<Family>, script: seq<ConnAnswer>): Attempt
    decreases |addrs|, |script|
  {
    if addrs == [] then Exhausted
    else if Excluded(ipv4, ipv6, addrs[0]) then Connect(ipv4, ipv6, addrs[1..], script)
    else if script == [] then Connect(ipv4, ipv6, addrs[1..], script)
    else
      match script[0]
      case NoBind => Connect(ipv4, ipv6, addrs[1..], script[1..])
      case NoSocket => Connect(ipv4, ipv6, addrs[1..], script[1..])
      case Refused => Connect(ipv4, ipv6, addrs[1..], script[1..])
      case BindFails => Connect(ipv4, ipv6, addrs, script[1..])
      case InProgress => Connecting(addrs)
      case Immediate => Connected(addrs)
  }

  /** When the entries have run out, the timer is set. */
  function TryConnect(t: Tunnel, script: seq<ConnAnswer>): Tunnel
    requires Sound(t) && !t.sock
  {
    match Connect(t.ipv4, t.ipv6, t.addrs, script)
    case Exhausted => t.(addrs := [], timerSet := true)
    case Connecting(addrs) => Opened(t, {EvOut, EvHup}).(addrs := addrs)
    case Connected(addrs) => Opened(t, ALL_EVENTS).(addrs := addrs, connected := true)
  }

  function InitiateLookup(t: Tunnel): Tunnel {
    t.(addrs := [], lookup := true)
  }

  function AddressResolved(t: Tunnel, addrs: seq<Family>, conns: seq<ConnAnswer>): Tunnel
    requires Sound(t) && !t.sock
  {
    TryConnect(t.(lookup := false, addrs := addrs, connected := false), conns)
  }

  function NextAddress(t: Tunnel, conns: seq<ConnAnswer>): Tunnel
    requires Sound(t) && t.addrs != []
  {
    TryConnect(ClearSocket(t.(addrs := t.addrs[1..])), conns)
  }

  predicate Closing(evs: set<Ev>) {
    EvHup in evs || EvIn in evs
  }

  /** The descriptor's handler; `soerr` is whether the socket reports an error. */
  function DescriptorReady(t: Tunnel, soerr: bool, script: seq<Answer>, conns: seq<ConnAnswer>): Tunnel
    requires Sound(t) && t.sock && t.addrs != []
  {
    var r := t.(watch := t.watch.(queued := false));
    if Closing(t.watch.got) then
      if !t.connected then NextAddress(r, conns) else ClearSocket(r).(timerSet := true)
    else if !t.connected then
      if soerr then NextAddress(r, conns) else r.(connected := true, watch := Watching(ALL_EVENTS))
    else TrySend(r.(writable := true), script)
  }

  /** A source declares itself ready. */
  function SourceReady(t: Tunnel, i: nat, script: seq<Answer>): Tunnel
    requires Sound(t) && i < |t.chans|
  {
    if i in t.waiting then t
    else
      var u := t.(waiting := t.waiting + [i]);
      if t.waiting != [] then u
      else if !t.sock then if t.timerSet || t.lookup then u else InitiateLookup(u)
      else if !t.connected then u
      else TrySend(u, script)
  }

  // ---------- events ----------

  datatype Event =
    | Submitted(chan: nat, clid: nat, payload: Bytes, now: nat, flush: nat)
    | Activated(chan: nat)
    | Woken(chan: nat, script: seq<Answer>)          // the channel's queue_event is notified
    | Reported(evs: set<Ev>)                         // the kernel reports on the descriptor
    | Notified(soerr: bool, script: seq<Answer>, conns: seq<ConnAnswer>)
    | TimerExpired                                   // the scheduler queues rstev's handler
    | TimerNotified                                  // and runs it
    | LookedUp(addrs: seq<Family>, conns: seq<ConnAnswer>)

  /** What the callers, the scheduler and the kernel can bring about. */
  predicate Possible(t: Tunnel, e: Event) {
    match e
    case Submitted(i, clid, payload, now, _) =>
      i < |t.chans| && Good(Entry(clid, payload)) && Ahead(now, t.chans[i].q.files)
    case Activated(i) => i < |t.chans|
    case Woken(i, _) => i < |t.chans| && t.chans[i].pending
    case Reported(evs) => t.watch.on && evs != {} && evs <= t.watch.expected + {EvHup, EvErr}
    case Notified(_, _, _) => t.watch.on && t.watch.queued
    case TimerExpired => t.timerSet
    case TimerNotified => t.timerDue
    case LookedUp(_, _) => t.lookup
  }

  /** The assertions of the handlers, and the dereferences of ainf. */
  predicate Asserts(t: Tunnel, e: Event) {
    match e
    case Notified(soerr, _, _) =>
      && t.sock && t.addrs != []
      && (if Closing(t.watch.got) then !t.connected ==> soerr else EvOut in t.watch.got)
    case TimerNotified => !t.timerSet && !t.lookup && !t.sock
    case LookedUp(_, _) => !t.sock
    case _ => true
  }

  /** The assertions of the channels: what is presented for sending is not empty. */
  predicate Presents(t: Tunnel, e: Event)
    requires Sound(t) && Possible(t, e)
  {
    match e
    case Woken(i, script) =>
      SetChanSound(t, i, t.chans[i].(pending := false));
      ReadyPresents(t.(chans := t.chans[i := t.chans[i].(pending := false)]), i, script)
    case Notified(_, script, _) =>
      (t.connected && !Closing(t.watch.got) ==>
         SendPresents(t.(watch := t.watch.(queued := false), writable := true), script))
    case _ => true
  }

  /** What is sent when a source becomes ready can be presented. */
  predicate ReadyPresents(t: Tunnel, i: nat, script: seq<Answer>)
    requires Sound(t) && i < |t.chans|
  {
    t.waiting == [] && t.sock && t.connected ==> SendPresents(t.(waiting := [i]), script)
  }

  predicate Enabled(t: Tunnel, e: Event)
    requires Sound(t)
  {
    Possible(t, e) && Asserts(t, e) && Presents(t, e)
  }

  function Step(t: Tunnel, e: Event): Tunnel
    requires Sound(t) && Enabled(t, e)
  {
    match e
    case Submitted(i, clid, payload, now, flush) =>
      t.(chans := t.chans[i := Submit(t.chans[i], clid, payload, now, flush)])
    case Activated(i) => t.(chans := t.chans[i := Activate(t.chans[i])])
    case Woken(i, script) =>
      SetChanSound(t, i, t.chans[i].(pending := false));
      SourceReady(t.(chans := t.chans[i := t.chans[i].(pending := false)]), i, script)
    case Reported(evs) =>
      t.(watch := t.watch.(got := t.watch.got + evs, expected := t.watch.expected - evs, queued := true))
    case Notified(soerr, script, conns) => DescriptorReady(t, soerr, script, conns)
    case TimerExpired => t.(timerSet := false, timerDue := true)
    case TimerNotified => InitiateLookup(t.(timerDue := false))
    case LookedUp(addrs, conns) => AddressResolved(t, addrs, conns)
  }

  lemma SetChanSound(t: Tunnel, i: nat, c: Chan)
    requires Sound(t) && i < |t.chans| && (ChanValid(t.chans[i]) ==> ChanValid(c))
    ensures Sound(t.(chans := t.chans[i := c]))
  {
    hide ChanValid;
  }
}
