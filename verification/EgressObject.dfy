// The receiving end as an object (TCPEgress::Connection in tcp_egress.cc): bytes are put together
// again in the buffer, and each message goes to the destinations of its label.
module EgressObjects {
  import opened Basics
  import opened Wire
  import opened Egress
  import opened Destinations
  import opened FanOut

  /** What a receive call gives: the peer has gone, or some bytes have come. */
  datatype Receipt = Hangup | Got(data: Bytes)

  /** The emitters of a client. */
  function EmittersOf(outlets: map<nat, map<nat, Emitter>>): set<Emitter> {
    set t, d | t in outlets && d in outlets[t] :: outlets[t][d]
  }

  /** Each chunk fits the room that the chunks before it leave. */
  predicate Fitting(start: Bytes, chunks: seq<Bytes>)
    decreases |chunks|
  {
    chunks == [] ||
    (0 < |chunks[0]| <= BUFFER_BYTES - |start| && Fitting(Parse(start + chunks[0]).rest, chunks[1..]))
  }

  class Connection {
    const tab: map<string, seq<nat>>      // the parent's bank of destinations
    const hash: nat
    const channels: map<nat, set<string>> // the parent's labels, with the names that each goes to
    const options: Options
    const buf: array<byte>
    var len: nat
    var open: bool                     // sock >= 0
    var armed: bool                    // fdev is waiting for input
    var flushDue: bool                 // the parent has been asked to clear out closed connections
    var clstats: map<nat, ClientState>
    var delivered: seq<Frame>          // what the client states have been given, in order
    var sent: seq<seq<Sending>>        // and what each of these was sent on as

    ghost predicate Valid()
      reads this, buf
    {
      buf.Length == BUFFER_BYTES && len <= buf.Length && Selectable(tab) && Forwarded() && Outfitted()
    }

    /** Every message has gone to each destination of its label, once, through its client's emitters. */
    ghost predicate Forwarded()
      reads this`clstats, this`delivered, this`sent
    {
      |sent| == |delivered| && forall k :: 0 <= k < |sent| ==> Forwards(clstats, delivered[k], sent[k])
    }

    /** Every client's labels go to exactly the destinations that their names select, and no two
        clients share an emitter. */
    ghost predicate Outfitted()
      requires Selectable(tab)
      reads this`clstats
    {
      && (forall c, t :: c in clstats ==> OutletExact(clstats[c].outlets, tab, hash, channels, options, t))
      && (forall c, d :: c in clstats && d in clstats && c != d ==>
            EmittersOf(clstats[c].outlets) !! EmittersOf(clstats[d].outlets))
    }

    /** The state between events: no complete message is left in the buffer. */
    ghost predicate Settled()
      reads this, buf
    {
      Valid() && Decode(buf[..len]) == None
    }

    /** Nothing else depends on the clients that were there already. */
    twostate predicate Kept()
      reads this
    {
      old(clstats).Keys <= clstats.Keys && forall c :: c in old(clstats) ==> clstats[c] == old(clstats)[c]
    }

    constructor (tab: map<string, seq<nat>>, hash: nat, channels: map<nat, set<string>>, options: Options)
      requires Selectable(tab)
      ensures Settled() && fresh(buf) && open && armed && !flushDue && len == 0
      ensures delivered == [] && sent == [] && clstats == map[]
      ensures this.tab == tab && this.hash == hash && this.channels == channels && this.options == options
    {
      this.tab, this.hash, this.channels, this.options := tab, hash, channels, options;
      buf := new byte[BUFFER_BYTES];
      len, open, armed, flushDue, clstats, delivered, sent := 0, true, true, false, map[], [], [];
    }

    /** The state of a client, made if there is none; making it fails when some destination that is
        needed cannot be served. */
    method Client(clid: nat, offers: nat -> nat -> Offer) returns (thrown: bool)
      requires Valid()
      modifies this`clstats
      ensures Valid() && Kept()
      ensures !thrown ==> clid in clstats && clstats.Keys == old(clstats).Keys + {clid}
      ensures thrown ==> clstats == old(clstats) && clid !in clstats
      ensures thrown ==> Unserved(tab, hash, channels, options, offers(clid))
    {
      if clid in clstats { return false; }
      hide OutletExact, Served, Required, Selectable, Spread, Forwards;
      var state, rounds := ClientState.Create(tab, hash, channels, options, offers(clid));
      if state == None { return true; }
      ghost var was := clstats;
      clstats := clstats[clid := state.value];
      forall c | c in was ensures EmittersOf(clstats[c].outlets) !! EmittersOf(state.value.outlets) {
      }
      forall k | 0 <= k < |sent| ensures Forwards(clstats, delivered[k], sent[k]) {
        ForwardsStill(was, clstats, delivered[k], sent[k]);
      }
      thrown := false;
    }

    lemma OneMoreForwarded(f: Frame, out: seq<Sending>)
      requires Forwarded() && Forwards(clstats, f, out)
      ensures var d, s := delivered + [f], sent + [out];
              |s| == |d| && forall k :: 0 <= k < |s| ==> Forwards(clstats, d[k], s[k])
    {
    }

    /** Delivers and removes the message at the front of the buffer, if it is complete. */
    method Process(offers: nat -> nat -> Offer) returns (more: bool, thrown: bool)
      requires Valid()
      modifies this`len, this`clstats, this`delivered, this`sent, buf
      ensures Valid() && Kept()
      ensures more || thrown <==> old(Decode(buf[..len])).Some?
      ensures !more ==> buf[..len] == old(buf[..len]) && delivered == old(delivered) && clstats == old(clstats)
      ensures more ==> !thrown
      ensures more ==> var f := old(Decode(buf[..len])).value;
                       old(buf[..len]) == Encode(f) + buf[..len]
                       && delivered == old(delivered) + [f] && clstats.Keys == old(clstats).Keys + {f.clid}
      ensures thrown ==> var f := old(Decode(buf[..len])).value;
                         f.clid !in clstats && Unserved(tab, hash, channels, options, offers(f.clid))
    {
      hide Encode, Decode, Spread, OutletExact, Selectable, Unserved;
      var clid, tag, pktlen, at;
      more, clid, tag, pktlen, at := DecodeMessage(buf, len);
      if !more { return false, false; }
      thrown := Client(clid, offers);
      if thrown { return false, true; }
      ghost var f := Frame(clid, tag, buf[at..at + pktlen]);
      var out := clstats[clid].Deliver(tag, buf[at..at + pktlen]);
      OneMoreForwarded(f, out) by { assert Forwards(clstats, f, out); }
      sent := sent + [out];
      delivered := delivered + [Frame(clid, tag, buf[at..at + pktlen])];
      EncodeDecode(buf[..len]);
      EncodeSize(f);
      DropFront(at + pktlen);
    }

    /** The header and the payload are consumed. */
    method DropFront(n: nat)
      requires n <= len <= buf.Length
      modifies this`len, buf
      ensures len <= buf.Length && buf[..len] == old(buf[..len])[n..]
    {
      len := len - n;
      forall i | 0 <= i < len {
        buf[i] := buf[i + n];
      }
    }

    /** The descriptor's handler.  What it throws, it throws at the first message of a client whose
        destinations cannot all be served; the messages before that one have been delivered. */
    method HandleFd(r: Receipt, offers: nat -> nat -> Offer) returns (thrown: bool)
      requires Settled() && open
      requires r.Got? ==> 0 < |r.data| <= buf.Length - len
      modifies this, buf
      ensures Valid() && Kept()
      ensures r.Hangup? ==> !thrown && Settled() && !open && !armed && flushDue && delivered == old(delivered)
                            && clstats == old(clstats) && buf[..len] == old(buf[..len])
      ensures r.Got? ==> open && armed && flushDue == old(flushDue)
      ensures r.Got? && !thrown ==>
              var p := Parse(old(buf[..len]) + r.data);
              && Settled() && len < buf.Length && buf[..len] == p.rest && delivered == old(delivered) + p.frames
              && clstats.Keys == old(clstats).Keys + set f | f in p.frames :: f.clid
      ensures thrown ==> r.Got? && Stuck(old(buf[..len]) + r.data, old(delivered), offers)
    {
      hide Decode, Encode, Parse, Spread, OutletExact, Selectable, Unserved, Forwards;
      if r.Hangup? {
        armed, open, flushDue := false, false, true;
        return false;
      }
      Append(r.data);
      armed := true;
      thrown := ProcessAll(offers);
    }

    /** Delivers message after message, until none is complete. */
    method ProcessAll(offers: nat -> nat -> Offer) returns (thrown: bool)
      requires Valid()
      modifies this`len, this`clstats, this`delivered, this`sent, buf
      ensures Valid() && Kept()
      ensures !thrown ==>
              var p := Parse(old(buf[..len]));
              && Settled() && len < buf.Length && buf[..len] == p.rest && delivered == old(delivered) + p.frames
              && clstats.Keys == old(clstats).Keys + set f | f in p.frames :: f.clid
      ensures thrown ==> Stuck(old(buf[..len]), old(delivered), offers)
    {
      hide Decode, Encode, Parse, Spread, OutletExact, Selectable, Unserved, Forwards, Forwarded, Outfitted;
      ghost var s := buf[..len];
      ghost var fs: seq<Frame> := [];
      var more := true;
      thrown := false;
      while more
        invariant Valid() && Kept()
        invariant Parse(s) == Parsed(fs + Parse(buf[..len]).frames, Parse(buf[..len]).rest)
        invariant delivered == old(delivered) + fs
        invariant clstats.Keys == old(clstats).Keys + set f | f in fs :: f.clid
        invariant !more && !thrown ==> Decode(buf[..len]) == None
        invariant thrown ==> !more && Held(offers)
        decreases more, len
      {
        ghost var f := Decode(buf[..len]);
        ghost var was := buf[..len];
        more, thrown := Process(offers);
        if more {
          TakeFirst(was, f.value, fs, buf[..len]);
          fs := fs + [f.value];
        }
      }
      if thrown {
        StuckNow(s, fs, offers, old(delivered));
        return;
      }
      RoomLeft(s);
      ParseNothing(buf[..len]);
      assert fs + [] == fs;
    }

    /** The message at the front of the buffer is of a new client, which cannot be made. */
    ghost predicate Held(offers: nat -> nat -> Offer)
      requires Valid()
      reads this, buf
    {
      var f := Decode(buf[..len]);
      f.Some? && f.value.clid !in clstats && Unserved(tab, hash, channels, options, offers(f.value.clid))
    }

    /** Of the messages in some bytes, the first few have been delivered, and the next is held. */
    ghost predicate Stuck(s: Bytes, before: seq<Frame>, offers: nat -> nat -> Offer)
      requires Valid()
      reads this, buf
    {
      Held(offers) && exists fs: seq<Frame> ::
        delivered == before + fs && Parse(s) == Parsed(fs + Parse(buf[..len]).frames, Parse(buf[..len]).rest)
    }

    lemma StuckNow(s: Bytes, fs: seq<Frame>, offers: nat -> nat -> Offer, before: seq<Frame>)
      requires Valid() && Held(offers) && delivered == before + fs
      requires Parse(s) == Parsed(fs + Parse(buf[..len]).frames, Parse(buf[..len]).rest)
      ensures Stuck(s, before, offers)
    {
    }

    lemma StuckPart(s: Bytes, before: seq<Frame>, offers: nat -> nat -> Offer)
      requires Valid() && Stuck(s, before, offers)
      ensures delivered <= before + Parse(s).frames
    {
    }

    /** The receive call's effect on the buffer. */
    method Append(data: Bytes)
      requires Valid() && |data| <= buf.Length - len
      modifies this`len, buf
      ensures Valid() && buf[..len] == old(buf[..len]) + data
    {
      forall i | 0 <= i < |data| {
        buf[len + i] := data[i];
      }
      len := len + |data|;
    }

    /** However a stream is cut up, unless some client cannot be made, all its messages are delivered,
        in order, and each has gone on to every destination of its label, once. */
    method HandleAll(chunks: seq<Bytes>, offers: nat -> nat -> Offer) returns (thrown: bool)
      requires Settled() && open && Fitting(buf[..len], chunks)
      modifies this, buf
      ensures Valid() && Kept()
      ensures !thrown ==>
              var p := Parse(old(buf[..len]) + Flatten(chunks));
              Settled() && open && delivered == old(delivered) + p.frames && buf[..len] == p.rest
      ensures thrown ==> delivered <= old(delivered) + Parse(old(buf[..len]) + Flatten(chunks)).frames
    {
      hide Decode, Encode, Parse, Spread, OutletExact, Selectable, Forwards, Forwarded, Outfitted, Stuck;
      thrown := false;
      ghost var start := buf[..len];
      ParseNothing(start);
      var i := 0;
      assert chunks[..0] == [] && chunks[0..] == chunks && start + [] == start;
      while i < |chunks|
        invariant i <= |chunks| && Settled() && Kept() && open && Fitting(buf[..len], chunks[i..])
        invariant Parse(start + Flatten(chunks[..i])).rest == buf[..len]
        invariant delivered == old(delivered) + Parse(start + Flatten(chunks[..i])).frames
      {
        assert chunks[i..][0] == chunks[i] && chunks[i..][1..] == chunks[i + 1..];
        ParseOn(start, chunks, i);
        ghost var was := buf[..len];
        ghost var before := delivered;
        thrown := HandleFd(Got(chunks[i]), offers);
        if thrown {
          StuckPart(was + chunks[i], before, offers);
          ParsePart(start, chunks, i + 1);
          return;
        }
        i := i + 1;
      }
      assert chunks[..i] == chunks;
    }
  }

  /** One more chunk. */
  lemma ParseOn(start: Bytes, chunks: seq<Bytes>, i: nat)
    requires i < |chunks|
    ensures var was := Parse(start + Flatten(chunks[..i]));
            Parse(start + Flatten(chunks[..i + 1])) ==
            Parsed(was.frames + Parse(was.rest + chunks[i]).frames, Parse(was.rest + chunks[i]).rest)
  {
    hide Parse;
    var s := start + Flatten(chunks[..i]);
    FlattenAppend(chunks[..i], [chunks[i]]);
    assert chunks[..i + 1] == chunks[..i] + [chunks[i]];
    assert Flatten([chunks[i]]) == chunks[i] + Flatten([]) == chunks[i];
    assert start + Flatten(chunks[..i + 1]) == s + chunks[i];
    ParseSplit(s, chunks[i]);
  }

  /** The messages of the first chunks are the first messages of all. */
  lemma ParsePart(start: Bytes, chunks: seq<Bytes>, i: nat)
    requires i <= |chunks|
    ensures Parse(start + Flatten(chunks[..i])).frames <= Parse(start + Flatten(chunks)).frames
  {
    hide Parse;
    FlattenAppend(chunks[..i], chunks[i..]);
    assert chunks == chunks[..i] + chunks[i..];
    assert start + Flatten(chunks) == (start + Flatten(chunks[..i])) + Flatten(chunks[i..]);
    ParseSplit(start + Flatten(chunks[..i]), Flatten(chunks[i..]));
  }

  /** A message has gone to each destination of its label, once, through its client's emitters. */
  ghost predicate Forwards(clstats: map<nat, ClientState>, f: Frame, sent: seq<Sending>) {
    f.clid in clstats && Spread(sent, OutletOf(clstats[f.clid].outlets, f.tag), f.payload)
  }

  lemma ForwardsStill(was: map<nat, ClientState>, now: map<nat, ClientState>, f: Frame, sent: seq<Sending>)
    requires Forwards(was, f, sent) && was.Keys <= now.Keys && forall c :: c in was ==> now[c] == was[c]
    ensures Forwards(now, f, sent)
  {
  }

  /** In some round the system offers nothing for a destination that some label needs. */
  ghost predicate Unserved(tab: map<string, seq<nat>>, hash: nat, channels: map<nat, set<string>>, options: Options,
                           offers: nat -> Offer)
    requires Selectable(tab)
  {
    exists d, k: nat :: d in Required(tab, hash, channels) && !Served(options, d, offers(k))
  }
}
