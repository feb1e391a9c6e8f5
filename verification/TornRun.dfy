// Runs that go wrong.  In one the peer closes a connection in the middle of a message, and the next
// connection delivers a message that was never sent (tcp_ingress.cc:109-117).  In another a source
// becomes ready between the expiry of the timer and its handler, whose assertion then fails
// (tcp_ingress.cc:169-177 and 399-410).  In two more the kernel reports on a connecting socket what
// the descriptor's handler asserts away (tcp_ingress.cc:90 and 122).
module TornRun {
  import opened Basics
  import opened Wire
  import opened Egress
  import opened Records
  import opened SpillQueue
  import opened Channels
  import opened ChannelFacts
  import QueueRuns
  import opened Tunnel
  import opened TunnelLinks
  import opened TunnelRuns
  import opened TunnelTheorems

  /** A datagram that looks like a message itself. */
  predicate Short(g: Frame) {
    Fits(g) && |Encode(g)| + CLID_SIZE <= MAX_RECORD
  }

  function Datagram(g: Frame): Bytes {
    Entry(0, Encode(g))
  }

  /** The message that carries it. */
  function Carrier(g: Frame): Frame {
    Frame(0, 7, Encode(g))
  }

  /** One channel, over a queue in memory. */
  function One(mem: seq<Bytes>, let: bool, held: bool, done: nat, pending: bool, live: bool,
               submitted: seq<Bytes>): Chan
  {
    Chan(7, Queue(100000, mem, TotalLength(mem), [], Closed, 0, let), held, done, pending, live, submitted)
  }

  function Quiet(live: bool): Chan {
    One([], live, false, 0, false, live, [])
  }

  function Loaded(g: Frame, held: bool, done: nat, pending: bool): Chan {
    One([Datagram(g)], false, held, done, pending, true, [Datagram(g)])
  }

  function Spent(g: Frame): Chan {
    One([], true, false, HEADER_BYTES + |Encode(g)|, false, true, [Datagram(g)])
  }

  function Start(): Tunnel {
    Tunnel(true, true, [Quiet(false)], [], false, false, false, Watch(false, {}, {}, false), false, false, false, [],
           [], 0, [], [])
  }

  lemma DatagramFacts(g: Frame)
    requires Short(g)
    ensures Good(Datagram(g)) && FrameOf(7, Datagram(g)) == Carrier(g) && |Datagram(g)| == CLID_SIZE + |Encode(g)|
    ensures |Encode(Carrier(g))| == HEADER_BYTES + |Encode(g)| && Encode(Carrier(g))[HEADER_BYTES..] == Encode(g)
    ensures Full(Datagram(g)) && |Encode(g)| >= HEADER_BYTES
  {
    EntryFrame(0, 7, Encode(g));
    EncodeSize(g);
    EncodeSize(Carrier(g));
  }

  lemma LoadedValid(g: Frame, held: bool, done: nat, pending: bool)
    requires Short(g) && done < HEADER_BYTES + |Encode(g)|
    ensures ChanValid(Loaded(g, held, done, pending))
  {
    hide Encode, Good;
    DatagramFacts(g);
    GoodSize(Datagram(g));
    var c := Loaded(g, held, done, pending);
    assert c.q.mem[1..] == [];
    assert Contents(c.q) == [Datagram(g)] + [] == [Datagram(g)];
    assert TotalLength(c.q.mem) == |Datagram(g)|;
    assert Storable(c.q.mem);
    assert FilesValid(c.q.maxMem, c.q.files, c.q.out);
    assert Valid(c.q);
    assert forall e :: e in Contents(c.q) ==> Good(e);
  }

  lemma QuietValid(c: Chan)
    requires c.tag < 65536 && c.q == Queue(100000, [], 0, [], Closed, 0, c.q.disappointed) && !c.held
    ensures ChanValid(c) && Poke(c) == c.(q := c.q.(disappointed := true))
  {
  }

  /** One event of a run. */
  lemma Go(t: Tunnel, e: Event, u: Tunnel, rest: seq<Event>)
    requires Sound(t) && Enabled(t, e) && !OpensWindow(t, e) && Step(t, e) == u && Legal(u, rest)
    ensures Legal(t, [e] + rest)
    ensures Executes(t, [e] + rest) <==> Executes(u, rest)
    ensures Executes(u, rest) ==> After(t, [e] + rest) == After(u, rest)
  {
    hide Sound, Step, Possible, Asserts, OpensWindow, Presents;
    assert ([e] + rest)[1..] == rest;
  }

  // ---------- the run, state by state ----------

  function Fed(g: Frame): Tunnel { Start().(chans := [Loaded(g, false, 0, true)]) }

  function Looking(g: Frame): Tunnel { Start().(chans := [Loaded(g, false, 0, false)], waiting := [0], lookup := true) }

  function Dialling(g: Frame): Tunnel {
    Looking(g).(lookup := false, sock := true, addrs := [V4], watch := Watching({EvOut, EvHup}))
  }

  function Joined(g: Frame): Tunnel { Dialling(g).(connected := true, watch := Watching(ALL_EVENTS)) }

  /** The header has gone. */
  function Halfway(g: Frame): Tunnel {
    Joined(g).(chans := [Loaded(g, true, HEADER_BYTES, false)], wire := Encode(Carrier(g))[..HEADER_BYTES])
  }

  /** The peer has gone, and the timer runs. */
  function Dropped(g: Frame): Tunnel {
    Halfway(g).(sock := false, timerSet := true, watch := Watch(false, {EvOut, EvIn}, {EvHup}, false))
  }

  /** The next connection. */
  function Rejoined(g: Frame): Tunnel {
    Dropped(g).(timerSet := false, sock := true, connected := true, watch := Watching(ALL_EVENTS),
                lead := Encode(Carrier(g))[..HEADER_BYTES], wire := [])
  }

  function Finished(g: Frame): Tunnel {
    Rejoined(g).(chans := [Spent(g)], waiting := [], sent := [Sent(0, 7, Datagram(g))], wire := Encode(g),
                 watch := Watch(true, {EvHup, EvIn}, {EvOut}, false))
  }

  lemma LoadedSound(t: Tunnel, g: Frame, held: bool, done: nat, pending: bool)
    requires Short(g) && done < HEADER_BYTES + |Encode(g)|
    requires t.chans == [Loaded(g, held, done, pending)] && (t.waiting == [] || t.waiting == [0])
    ensures Sound(t)
  {
    hide ChanValid;
    LoadedValid(g, held, done, pending);
  }

  lemma Begins(g: Frame)
    requires Short(g)
    ensures Initial(Start()) && Sound(Start()) && Enabled(Start(), Activated(0))
    ensures Step(Start(), Activated(0)) == Start().(chans := [Quiet(true)])
  {
    hide Encode, Good;
    QuietValid(Quiet(false));
  }

  lemma Feeds(g: Frame)
    requires Short(g)
    ensures var t := Start().(chans := [Quiet(true)]); var e := Submitted(0, 0, Encode(g), 1, 0);
            Sound(t) && Enabled(t, e) && Step(t, e) == Fed(g)
  {
    hide Encode, Good, ChanValid, Submit;
    DatagramFacts(g);
    QuietValid(Quiet(true));
    QuietFed(g);
  }

  lemma QuietFed(g: Frame)
    requires Short(g)
    ensures Submit(Quiet(true), 0, Encode(g), 1, 0) == Loaded(g, false, 0, true)
  {
    hide Encode, Good, Push, PushWakes;
    DatagramFacts(g);
    Refills(Datagram(g));
    assert [] + [Datagram(g)] == [Datagram(g)];
    assert [Datagram(g)][1..] == [];
  }

  lemma Wakes(g: Frame)
    requires Short(g)
    ensures Sound(Fed(g)) && Enabled(Fed(g), Woken(0, [])) && Step(Fed(g), Woken(0, [])) == Looking(g)
    ensures var e := LookedUp([V4], [InProgress]);
            Sound(Looking(g)) && Enabled(Looking(g), e) && Step(Looking(g), e) == Dialling(g)
  {
    hide ChanValid;
    LoadedSound(Fed(g), g, false, 0, true);
    LoadedSound(Looking(g), g, false, 0, false);
    LoadedSound(Fed(g).(chans := [Loaded(g, false, 0, false)]), g, false, 0, false);
    assert Fed(g).chans[0 := Fed(g).chans[0].(pending := false)] == [Loaded(g, false, 0, false)];
    var r := Looking(g).(lookup := false, addrs := [V4], connected := false);
    LoadedSound(r, g, false, 0, false);
  }

  /** What the kernel reports, and then the handler's turn. */
  function Told(t: Tunnel, ev: Ev): Tunnel {
    t.(watch := t.watch.(got := t.watch.got + {ev}, expected := t.watch.expected - {ev}, queued := true))
  }

  lemma Connects(g: Frame)
    requires Short(g)
    ensures Sound(Dialling(g)) && Possible(Dialling(g), Reported({EvOut}))
    ensures Step(Dialling(g), Reported({EvOut})) == Told(Dialling(g), EvOut)
    ensures var t, e := Told(Dialling(g), EvOut), Notified(false, [], []);
            Sound(t) && Enabled(t, e) && Step(t, e) == Joined(g)
  {
    hide ChanValid;
    LoadedSound(Dialling(g), g, false, 0, false);
    LoadedSound(Told(Dialling(g), EvOut), g, false, 0, false);
  }

  lemma SendsHeader(g: Frame)
    requires Short(g)
    ensures Sound(Joined(g)) && Possible(Joined(g), Reported({EvOut}))
    ensures Step(Joined(g), Reported({EvOut})) == Told(Joined(g), EvOut)
    ensures var t, e := Told(Joined(g), EvOut), Notified(false, [Took(HEADER_BYTES)], []);
            Sound(t) && Enabled(t, e) && Step(t, e) == Halfway(g)
  {
    hide ChanValid, Encode, Good, Datagram, SendLoop, LoopPresents, Sound, Loaded;
    LoadedSound(Joined(g), g, false, 0, false);
    LoadedSound(Told(Joined(g), EvOut), g, false, 0, false);
    var t := Told(Joined(g), EvOut);
    var w := t.(watch := t.watch.(queued := false), writable := true);
    LoadedSound(w, g, false, 0, false);
    DatagramFacts(g);
    FirstTurn(w, g);
  }

  lemma TakesUp(w: Tunnel, g: Frame)
    requires Short(g) && w.chans == [Loaded(g, false, 0, false)] && w.waiting == [0] && Sound(w)
    ensures var d := w.(chans := [Loaded(g, true, 0, false)]);
            Described(w) == d && Sound(d) && HeadHeld(d) && Offer(FirstChan(d)) == Encode(Carrier(g))
            && Describable(FirstChan(w))
  {
    hide ChanValid, Encode, Good, Datagram;
    DatagramFacts(g);
    LoadedSound(w.(chans := [Loaded(g, true, 0, false)]), g, true, 0, false);
  }

  lemma TakesHeader(d: Tunnel, g: Frame)
    requires Short(g) && d.chans == [Loaded(g, true, 0, false)] && d.waiting == [0] && d.wire == [] && Sound(d)
    ensures TookSome(d, HEADER_BYTES) ==
            d.(chans := [Loaded(g, true, HEADER_BYTES, false)], writable := false,
               wire := Encode(Carrier(g))[..HEADER_BYTES])
  {
    hide ChanValid, Encode, Good, Datagram, Sound;
    DatagramFacts(g);
    LoadedValid(g, true, 0, false);
    FirstIs(d, Loaded(g, true, 0, false));
    var c := FirstChan(d);
    assert Offer(c) == Encode(Carrier(g));
    assert Consumed(c, HEADER_BYTES) == Loaded(g, true, HEADER_BYTES, false);
    assert [] + Encode(Carrier(g))[..HEADER_BYTES] == Encode(Carrier(g))[..HEADER_BYTES];
  }

  lemma FirstIs(t: Tunnel, c: Chan)
    requires t.chans == [c] && t.waiting == [0] && Sound(t)
    ensures FirstChan(t) == c && ChanValid(c) && (HeadHeld(t) <==> c.held)
    ensures forall d :: SetFirst(t, d) == t.(chans := [d])
  {
    hide ChanValid;
  }

  lemma Blocks(u: Tunnel, g: Frame)
    requires Short(g) && u.chans == [Loaded(g, true, HEADER_BYTES, false)] && u.waiting == [0]
    requires !u.writable && Sound(u)
    ensures Described(u) == u && HeadHeld(u) && Block(u) == u.(watch := Watching(ALL_EVENTS))
    ensures Describable(FirstChan(u))
  {
    hide ChanValid, Encode, Good, Datagram, Sound, SetFirst, Peek, Poke, Consume, TotalLength;
    DatagramFacts(g);
    LoadedValid(g, true, HEADER_BYTES, false);
    var c := Loaded(g, true, HEADER_BYTES, false);
    FirstIs(u, c);
    assert Describe(c) == c && Consumed(c, 0) == c;
    assert SetFirst(u, c) == u;
  }

  /** The first turn of the loop sends the header, and the second is blocked. */
  lemma FirstTurn(w: Tunnel, g: Frame)
    requires Short(g) && w.chans == [Loaded(g, false, 0, false)] && w.waiting == [0] && w.wire == [] && Sound(w)
    ensures SendLoop(w, [Took(HEADER_BYTES)]) ==
            w.(chans := [Loaded(g, true, HEADER_BYTES, false)], writable := false,
               wire := Encode(Carrier(g))[..HEADER_BYTES], watch := Watching(ALL_EVENTS))
    ensures LoopPresents(w, [Took(HEADER_BYTES)])
  {
    hide ChanValid, Encode, Good, Datagram, Pending, Described, TookSome, Block, Sound, Loaded, HeadHeld, Describable;
    DatagramFacts(g);
    var d := w.(chans := [Loaded(g, true, 0, false)]);
    var u := d.(chans := [Loaded(g, true, HEADER_BYTES, false)], writable := false,
                wire := Encode(Carrier(g))[..HEADER_BYTES]);
    TakesUp(w, g);
    TakesHeader(d, g);
    LoadedSound(u, g, true, HEADER_BYTES, false);
    Blocks(u, g);
    assert [Took(HEADER_BYTES)][1..] == [];
    assert LoopTurn(w, [Took(HEADER_BYTES)]) == Again(u, []);
    LoopProgress(w, [Took(HEADER_BYTES)]);
  }

  lemma Drops(g: Frame)
    requires Short(g)
    ensures Sound(Halfway(g)) && Possible(Halfway(g), Reported({EvHup}))
    ensures Step(Halfway(g), Reported({EvHup})) == Told(Halfway(g), EvHup)
    ensures var t, e := Told(Halfway(g), EvHup), Notified(false, [], []);
            Sound(t) && Enabled(t, e) && Step(t, e) == Dropped(g)
  {
    hide ChanValid, Encode, Good;
    EncodeSize(g);
    LoadedSound(Halfway(g), g, true, HEADER_BYTES, false);
    LoadedSound(Told(Halfway(g), EvHup), g, true, HEADER_BYTES, false);
  }

  lemma Redials(g: Frame)
    requires Short(g)
    ensures Sound(Dropped(g)) && Step(Dropped(g), TimerExpired) == Dropped(g).(timerSet := false, timerDue := true)
    ensures var t := Dropped(g).(timerSet := false, timerDue := true);
            Sound(t) && Step(t, TimerNotified) == Dropped(g).(timerSet := false, lookup := true, addrs := [])
    ensures var t := Dropped(g).(timerSet := false, lookup := true, addrs := []);
            Sound(t) && Step(t, LookedUp([V4], [Immediate])) == Rejoined(g)
  {
    hide ChanValid, Encode, Good;
    EncodeSize(g);
    LoadedSound(Dropped(g), g, true, HEADER_BYTES, false);
    LoadedSound(Dropped(g).(timerSet := false, timerDue := true), g, true, HEADER_BYTES, false);
    var t := Dropped(g).(timerSet := false, lookup := true, addrs := []);
    LoadedSound(t, g, true, HEADER_BYTES, false);
    var r := t.(lookup := false, addrs := [V4], connected := false);
    LoadedSound(r, g, true, HEADER_BYTES, false);
    DatagramFacts(g);
  }

  lemma SendsRest(g: Frame)
    requires Short(g)
    ensures Sound(Rejoined(g)) && Possible(Rejoined(g), Reported({EvOut}))
    ensures Step(Rejoined(g), Reported({EvOut})) == Told(Rejoined(g), EvOut)
    ensures var t, e := Told(Rejoined(g), EvOut), Notified(false, [Took(|Encode(g)|)], []);
            Sound(t) && Enabled(t, e) && Step(t, e) == Finished(g)
  {
    hide ChanValid, Encode, Good, Datagram, SendLoop, LoopPresents, Sound, Loaded;
    EncodeSize(g);
    LoadedSound(Rejoined(g), g, true, HEADER_BYTES, false);
    var t := Told(Rejoined(g), EvOut);
    LoadedSound(t, g, true, HEADER_BYTES, false);
    var w := t.(watch := t.watch.(queued := false), writable := true);
    LoadedSound(w, g, true, HEADER_BYTES, false);
    LastTurn(w, g);
  }

  /** The one turn of the loop sends what is left. */
  lemma LastTurn(w: Tunnel, g: Frame)
    requires Short(g) && w.chans == [Loaded(g, true, HEADER_BYTES, false)] && w.waiting == [0]
    requires w.wire == [] && w.sent == [] && Sound(w)
    ensures SendLoop(w, [Took(|Encode(g)|)]) ==
            w.(chans := [Spent(g)], waiting := [], writable := false, wire := Encode(g),
               sent := [Sent(0, 7, Datagram(g))])
    ensures LoopPresents(w, [Took(|Encode(g)|)])
  {
    hide ChanValid, Encode, Good, Datagram, Pending, Described, TookSome, Block, Sound, Loaded, HeadHeld, Describable;
    EncodeSize(g);
    TakesUpAgain(w, g);
    TakesRest(w, g);
    assert [Took(|Encode(g)|)][1..] == [];
    LoopProgress(w, [Took(|Encode(g)|)]);
  }

  lemma TakesUpAgain(w: Tunnel, g: Frame)
    requires Short(g) && w.chans == [Loaded(g, true, HEADER_BYTES, false)] && w.waiting == [0] && Sound(w)
    ensures Described(w) == w && HeadHeld(w) && Describable(FirstChan(w))
  {
    hide ChanValid, Encode, Good, Datagram, Sound, SetFirst;
    DatagramFacts(g);
    FirstIs(w, Loaded(g, true, HEADER_BYTES, false));
  }

  lemma TakesRest(d: Tunnel, g: Frame)
    requires Short(g) && d.chans == [Loaded(g, true, HEADER_BYTES, false)] && d.waiting == [0]
    requires d.wire == [] && d.sent == [] && Sound(d)
    requires HeadHeld(d)
    ensures TookSome(d, |Encode(g)|) ==
            d.(chans := [Spent(g)], waiting := [], writable := false, wire := Encode(g),
               sent := [Sent(0, 7, Datagram(g))])
  {
    hide ChanValid, Encode, Good, Datagram, Sound, SetFirst, Poke;
    DatagramFacts(g);
    EncodeSize(g);
    FirstIs(d, Loaded(g, true, HEADER_BYTES, false));
    var c := FirstChan(d);
    assert Offer(c) == Encode(g);
    Empties(g);
    assert [] + Encode(g)[..|Encode(g)|] == Encode(g);
    assert [0][1..] == [];
  }

  lemma Empties(g: Frame)
    requires Short(g)
    ensures ChanValid(Loaded(g, true, HEADER_BYTES, false))
    ensures Consumed(Loaded(g, true, HEADER_BYTES, false), |Encode(g)|) == Spent(g)
  {
    hide Encode, Good, Datagram, ChanValid;
    EncodeSize(g);
    LoadedValid(g, true, HEADER_BYTES, false);
    DatagramFacts(g);
    assert TotalLength([Datagram(g)]) == |Datagram(g)|;
    assert [Datagram(g)][1..] == [];
  }

  // ---------- the whole run ----------

  function Opening(g: Frame, rest: seq<Event>): seq<Event> {
    [Activated(0)] + ([Submitted(0, 0, Encode(g), 1, 0)] + ([Woken(0, [])] + ([LookedUp([V4], [InProgress])] + rest)))
  }

  function Run(g: Frame): seq<Event> {
    Opening(g, Second(g))
  }

  function Second(g: Frame): seq<Event> {
    [Reported({EvOut})] + ([Notified(false, [], [])] + ([Reported({EvOut})] +
    ([Notified(false, [Took(HEADER_BYTES)], [])] + Third(g))))
  }

  function Third(g: Frame): seq<Event> {
    [Reported({EvHup})] + ([Notified(false, [], [])] + ([TimerExpired] + ([TimerNotified] + Fourth(g))))
  }

  function Fourth(g: Frame): seq<Event> {
    [LookedUp([V4], [Immediate])] + ([Reported({EvOut})] + ([Notified(false, [Took(|Encode(g)|)], [])] + []))
  }

  lemma FourthRuns(g: Frame)
    requires Short(g)
    ensures var t := Dropped(g).(timerSet := false, lookup := true, addrs := []);
            Legal(t, Fourth(g)) && Executes(t, Fourth(g)) && After(t, Fourth(g)) == Finished(g)
  {
    hide Sound, Step, SendPresents, Encode;
    Redials(g);
    SendsRest(g);
    Go(Told(Rejoined(g), EvOut), Notified(false, [Took(|Encode(g)|)], []), Finished(g), []);
    Go(Rejoined(g), Reported({EvOut}), Told(Rejoined(g), EvOut), [Notified(false, [Took(|Encode(g)|)], [])] + []);
    Go(Dropped(g).(timerSet := false, lookup := true, addrs := []), LookedUp([V4], [Immediate]), Rejoined(g),
       [Reported({EvOut})] + ([Notified(false, [Took(|Encode(g)|)], [])] + []));
  }

  lemma ThirdRuns(g: Frame)
    requires Short(g)
    ensures Legal(Halfway(g), Third(g)) && Executes(Halfway(g), Third(g)) && After(Halfway(g), Third(g)) == Finished(g)
  {
    hide Sound, Step, SendPresents, Encode, Fourth;
    FourthRuns(g);
    Redials(g);
    Drops(g);
    var gone := Dropped(g).(timerSet := false, timerDue := true);
    var looking := Dropped(g).(timerSet := false, lookup := true, addrs := []);
    Go(gone, TimerNotified, looking, Fourth(g));
    Go(Dropped(g), TimerExpired, gone, [TimerNotified] + Fourth(g));
    Go(Told(Halfway(g), EvHup), Notified(false, [], []), Dropped(g), [TimerExpired] + ([TimerNotified] + Fourth(g)));
    Go(Halfway(g), Reported({EvHup}), Told(Halfway(g), EvHup),
       [Notified(false, [], [])] + ([TimerExpired] + ([TimerNotified] + Fourth(g))));
  }

  lemma SecondRuns(g: Frame)
    requires Short(g)
    ensures Legal(Dialling(g), Second(g)) && Executes(Dialling(g), Second(g))
    ensures After(Dialling(g), Second(g)) == Finished(g)
  {
    hide Sound, Step, SendPresents, Encode, Third;
    ThirdRuns(g);
    SendsHeader(g);
    Connects(g);
    var send := Notified(false, [Took(HEADER_BYTES)], []);
    Go(Told(Joined(g), EvOut), send, Halfway(g), Third(g));
    Go(Joined(g), Reported({EvOut}), Told(Joined(g), EvOut), [send] + Third(g));
    Go(Told(Dialling(g), EvOut), Notified(false, [], []), Joined(g), [Reported({EvOut})] + ([send] + Third(g)));
    Go(Dialling(g), Reported({EvOut}), Told(Dialling(g), EvOut),
       [Notified(false, [], [])] + ([Reported({EvOut})] + ([send] + Third(g))));
  }

  lemma OpeningRuns(g: Frame, rest: seq<Event>)
    requires Short(g) && Legal(Dialling(g), rest)
    ensures Initial(Start()) && Legal(Start(), Opening(g, rest))
    ensures Executes(Start(), Opening(g, rest)) <==> Executes(Dialling(g), rest)
    ensures Executes(Dialling(g), rest) ==> After(Start(), Opening(g, rest)) == After(Dialling(g), rest)
  {
    hide Sound, Step, Presents, Possible, Asserts, Initial, Encode;
    Wakes(g);
    Begins(g);
    Feeds(g);
    var live := Start().(chans := [Quiet(true)]);
    var look := LookedUp([V4], [InProgress]);
    Go(Looking(g), look, Dialling(g), rest);
    Go(Fed(g), Woken(0, []), Looking(g), [look] + rest);
    Go(live, Submitted(0, 0, Encode(g), 1, 0), Fed(g), [Woken(0, [])] + ([look] + rest));
    Go(Start(), Activated(0), live, [Submitted(0, 0, Encode(g), 1, 0)] + ([Woken(0, [])] + ([look] + rest)));
  }

  lemma AllRuns(g: Frame)
    requires Short(g)
    ensures Initial(Start()) && Legal(Start(), Run(g)) && Executes(Start(), Run(g))
    ensures After(Start(), Run(g)) == Finished(g)
  {
    hide Initial, Legal, Executes, After, Second, Opening;
    SecondRuns(g);
    OpeningRuns(g, Second(g));
  }

  /** From the start of a tunnel, one datagram is submitted, its header is sent, the peer closes the
      connection, and the rest is sent on the next: there, the message that the datagram happens to
      spell is delivered, and the one that was sent is not. */
  lemma TornRunDelivers(g: Frame)
    requires Short(g)
    ensures Initial(Start()) && Legal(Start(), Run(g)) && Executes(Start(), Run(g))
    ensures var u := After(Start(), Run(g));
            && u.sock && u.sent == [Sent(0, 7, Datagram(g))]
            && Receive(Parse([]), [u.wire]).frames == [g]
            && FrameOf(7, Datagram(g)) != g
  {
    hide Initial, Legal, Executes, After, Sound, Inv, LinkInv, Clean, Receive, Parse, Encode, Run;
    AllRuns(g);
    InitialInv(Start());
    RunKeeps(Start(), Run(g));
    var u := Finished(g);
    InvSound(u);
    NothingPartial(u);
    CarriedFrames(g, u);
    DatagramFacts(g);
    assert Flatten([u.wire]) == u.wire + [] == u.wire;
    TornMisleads(u, Carrier(g), g, [u.wire]);
  }

  lemma NothingPartial(u: Tunnel)
    requires Sound(u) && u.waiting == []
    ensures Partial(u) == []
  {
  }

  lemma CarriedFrames(g: Frame, u: Tunnel)
    requires Short(g) && Inv(u) && u.sent == [Sent(0, 7, Datagram(g))] && u.mark == 0
    ensures CurrentFrames(u) == [Carrier(g)]
  {
    hide ChansOk, QueueOk, Sound, Framing, Encode, Datagram;
    DatagramFacts(g);
  }

  // ---------- the early report ----------

  /** The kernel reports `ev` on the connecting socket, and then the descriptor's handler runs. */
  function Early(g: Frame, ev: Ev, handled: seq<Event>): seq<Event> {
    Opening(g, [Reported({ev})] + handled)
  }

  /** From the start of a tunnel, a legal run leads to an assertion that fails in the descriptor's handler:
      either the peer has accepted the connection and closed it at once, so that closure is reported
      on a connecting socket that has no error, or an error is reported and nothing else. */
  lemma EarlyRunFails(g: Frame, ev: Ev)
    requires Short(g) && (ev == EvHup || ev == EvErr)
    ensures Initial(Start()) && Executes(Start(), Early(g, ev, []))
    ensures var u, e := After(Start(), Early(g, ev, [])), Notified(false, [], []);
            Possible(u, e) && !Asserts(u, e) && (if ev == EvHup then ClosedEarly(u, e) else ErrorOnly(u, e))
    ensures Legal(Start(), Early(g, ev, [Notified(false, [], [])]))
    ensures !Executes(Start(), Early(g, ev, [Notified(false, [], [])]))
  {
    hide Initial, Opening, Encode, Sound, Dialling, Presents;
    EarlyReport(g, ev);
    var u, e := Told(Dialling(g), ev), Notified(false, [], []);
    assert [e][1..] == [];
    assert Legal(u, [e]) && !Executes(u, [e]);
    hide Legal, Executes, After;
    Go(Dialling(g), Reported({ev}), u, [e]);
    Go(Dialling(g), Reported({ev}), u, []);
    OpeningRuns(g, [Reported({ev})] + [e]);
    OpeningRuns(g, [Reported({ev})] + []);
  }

  lemma EarlyReport(g: Frame, ev: Ev)
    requires Short(g) && (ev == EvHup || ev == EvErr)
    ensures Sound(Dialling(g)) && Enabled(Dialling(g), Reported({ev}))
    ensures var u, e := Told(Dialling(g), ev), Notified(false, [], []);
            && Step(Dialling(g), Reported({ev})) == u
            && Sound(u) && Possible(u, e) && !Asserts(u, e)
            && (if ev == EvHup then ClosedEarly(u, e) else ErrorOnly(u, e))
  {
    hide ChanValid;
    LoadedSound(Dialling(g), g, false, 0, false);
    LoadedSound(Told(Dialling(g), ev), g, false, 0, false);
    assert {} + {ev} == {ev};
  }

  // ---------- the window ----------

  /** The peer goes while nothing is waiting, the timer expires, and a datagram arrives. */
  function Window(g: Frame): seq<Event> {
    [Reported({EvHup})] + ([Notified(false, [], [])] + ([TimerExpired] +
    ([Submitted(0, 0, Encode(g), 1, 0)] + ([Woken(0, [])] + []))))
  }

  /** Nothing is waiting, the connection is gone, and the timer runs or has just expired. */
  function Lapsed(g: Frame, due: bool): Tunnel {
    Finished(g).(sock := false, watch := Watch(false, {EvIn}, {EvOut, EvHup}, false), timerSet := !due, timerDue := due)
  }

  function Refed(g: Frame): Chan {
    One([Datagram(g)], false, false, HEADER_BYTES + |Encode(g)|, true, true, [Datagram(g), Datagram(g)])
  }

  lemma SpentSound(t: Tunnel, g: Frame)
    requires t.chans == [Spent(g)] && t.waiting == []
    ensures Sound(t)
  {
    hide Encode, Datagram;
    assert Contents(Spent(g).q) == [];
  }

  lemma Lapses(g: Frame)
    requires Short(g)
    ensures Sound(Finished(g)) && Sound(Lapsed(g, false))
    ensures Enabled(Finished(g), Reported({EvHup})) && Enabled(Lapsed(g, false), TimerExpired)
    ensures Step(Finished(g), Reported({EvHup})) == Told(Finished(g), EvHup)
    ensures var t, e := Told(Finished(g), EvHup), Notified(false, [], []);
            Sound(t) && Enabled(t, e) && Step(t, e) == Lapsed(g, false)
    ensures Step(Lapsed(g, false), TimerExpired) == Lapsed(g, true)
  {
    hide Encode, Datagram, ChanValid;
    SpentSound(Finished(g), g);
    SpentSound(Told(Finished(g), EvHup), g);
    SpentSound(Lapsed(g, false), g);
  }

  lemma Refills(entry: Bytes)
    requires Good(entry)
    ensures var q := Queue(100000, [], 0, [], Closed, 0, true);
            Push(q, entry, 1, 0) == Queue(100000, [entry], |entry|, [], Closed, 0, false) && PushWakes(q, entry)
  {
    hide Good;
    GoodSize(entry);
  }

  lemma RefeedsChan(g: Frame)
    requires Short(g)
    ensures Submit(Spent(g), 0, Encode(g), 1, 0) == Refed(g) && ChanValid(Spent(g)) && ChanValid(Refed(g))
  {
    hide Encode, Good, ChanValid, Push, PushWakes, Contents, Waiting, Subsequence, QueueRuns.PushKeeps;
    DatagramFacts(g);
    Refills(Datagram(g));
    assert TotalLength([]) == 0 && TotalLength([Datagram(g)]) == |Datagram(g)| by { assert [Datagram(g)][1..] == []; }
    SpentSound(Lapsed(g, true), g);
    FirstOnly(Lapsed(g, true), Spent(g));
    assert [Datagram(g)] + [Datagram(g)] == [Datagram(g), Datagram(g)];
    SubmitEffect(Spent(g), 0, Encode(g), 1, 0);
  }

  lemma FirstOnly(t: Tunnel, c: Chan)
    requires Sound(t) && t.chans == [c]
    ensures ChanValid(c)
  {
    hide ChanValid;
    assert t.chans[0] == c;
  }

  lemma Refeeds(g: Frame)
    requires Short(g)
    ensures var t, e := Lapsed(g, true), Submitted(0, 0, Encode(g), 1, 0);
            Sound(t) && Enabled(t, e) && Step(t, e) == t.(chans := [Refed(g)])
    ensures ChanValid(Refed(g))
  {
    hide Encode, Good, Submit, ChanValid, Refed, Datagram, Sound;
    DatagramFacts(g);
    SpentSound(Lapsed(g, true), g);
    RefeedsChan(g);
    assert Entry(0, Encode(g)) == Datagram(g) by { EntryIs(g); }
  }

  lemma EntryIs(g: Frame)
    ensures Entry(0, Encode(g)) == Datagram(g)
  {
  }

  lemma Overlaps(g: Frame)
    requires Short(g) && ChanValid(Refed(g))
    ensures var t, e := Lapsed(g, true).(chans := [Refed(g)]), Woken(0, []);
            && Sound(t) && Enabled(t, e)
            && Possible(Step(t, e), TimerNotified) && !Asserts(Step(t, e), TimerNotified)
  {
    hide ChanValid, Encode, Datagram;
  }

  lemma OneStep(t: Tunnel, e: Event, rest: seq<Event>)
    requires Sound(t) && Enabled(t, e) && Executes(Step(t, e), rest)
    ensures Executes(t, [e] + rest) && After(t, [e] + rest) == After(Step(t, e), rest)
  {
    hide Sound, Step, Enabled;
    assert ([e] + rest)[1..] == rest;
  }

  lemma WindowRuns(g: Frame)
    requires Short(g)
    ensures Executes(Finished(g), Window(g))
    ensures var u := After(Finished(g), Window(g)); Possible(u, TimerNotified) && !Asserts(u, TimerNotified)
  {
    hide Initial, Legal, Sound, Step, Encode, Presents, Possible, Asserts, Refed, Finished, Lapsed, Told;
    Lapses(g);
    Refeeds(g);
    Overlaps(g);
    var fed := Lapsed(g, true).(chans := [Refed(g)]);
    var submit := Submitted(0, 0, Encode(g), 1, 0);
    OneStep(fed, Woken(0, []), []);
    OneStep(Lapsed(g, true), submit, [Woken(0, [])] + []);
    OneStep(Lapsed(g, false), TimerExpired, [submit] + ([Woken(0, [])] + []));
    OneStep(Told(Finished(g), EvHup), Notified(false, [], []), [TimerExpired] + ([submit] + ([Woken(0, [])] + [])));
    OneStep(Finished(g), Reported({EvHup}),
            [Notified(false, [], [])] + ([TimerExpired] + ([submit] + ([Woken(0, [])] + []))));
  }

  /** From the start of a tunnel, a run of possible events leads to the timer's handler finding a
      lookup already outstanding. */
  lemma WindowRunFails(g: Frame)
    requires Short(g)
    ensures Initial(Start()) && Executes(Start(), Run(g) + Window(g))
    ensures var u := After(Start(), Run(g) + Window(g)); Possible(u, TimerNotified) && !Asserts(u, TimerNotified)
  {
    hide Initial, Legal, Executes, After, Possible, Asserts, Window, Encode, Run;
    AllRuns(g);
    WindowRuns(g);
    RunsOn(Start(), Run(g), Window(g));
  }
}
