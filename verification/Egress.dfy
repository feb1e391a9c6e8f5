// The receiving end of a tunnel connection: what reassembly in TCPEgress::Connection comes to
// (tcp_egress.cc).
module Egress {
  import opened Basics
  import opened Wire

  const BUFFER_BYTES := HEADER_BYTES + MAX_LENGTH

  /** The deliveries and the leftover after chunks arrive one by one. */
  function Receive(p: Parsed, chunks: seq<Bytes>): Parsed
    decreases |chunks|
  {
    if chunks == [] then p else Receive(ParseMore(p, chunks[0]), chunks[1..])
  }

  /** However a stream is cut up for delivery, what comes out is one parse of the whole. */
  lemma {:induction false} ChunkIndependence(start: Bytes, chunks: seq<Bytes>)
    ensures Receive(Parse(start), chunks) == Parse(start + Flatten(chunks))
    decreases |chunks|
  {
    hide Parse, ParseMore;
    if chunks == [] {
      assert start + Flatten(chunks) == start;
    } else {
      ParseSplit(start, chunks[0]);
      ChunkIndependence(start + chunks[0], chunks[1..]);
      assert start + Flatten(chunks) == (start + chunks[0]) + Flatten(chunks[1..]);
    }
  }

  /** A leftover never fills the buffer, so there is always room for another receive. */
  lemma RoomLeft(s: Bytes)
    ensures |Parse(s).rest| <= 65540 && BUFFER_BYTES == 65542
  {
    ParseSplit(s, []);
    var rest := Parse(s).rest;
    if |rest| >= HEADER_BYTES {
      FieldOfValue(rest[LENGTH_AT..]);
    }
  }

  lemma ParseNothing(s: Bytes)
    requires Decode(s) == None
    ensures Parse(s) == Parsed([], s)
  {
  }

  lemma TakeFirst(was: Bytes, f: Frame, fs: seq<Frame>, now: Bytes)
    requires Decode(was) == Some(f) && was == Encode(f) + now
    ensures |now| < |was|
    ensures Parsed(fs + Parse(was).frames, Parse(was).rest)
            == Parsed((fs + [f]) + Parse(now).frames, Parse(now).rest)
  {
    hide Decode, Encode, Fits, Parse;
    EncodeDecode(was);
    EncodeSize(f);
    ParseFirst(f, now);
    assert fs + ([f] + Parse(now).frames) == (fs + [f]) + Parse(now).frames;
  }
}
