// The tunnel's message format: marshaling.cc over the types and sizes of messages.hh.
module Wire {
  import opened Basics

  const FIELD_BYTES := 2  // MAX_CLID_BYTES, MAX_LABEL_BYTES and MAX_LENGTH_BYTES
  const LABEL_AT := FIELD_BYTES
  const LENGTH_AT := 2 * FIELD_BYTES
  const HEADER_BYTES := 3 * FIELD_BYTES
  const MAX_LENGTH := 65536

  /** One tunnelled datagram. */
  datatype Frame = Frame(clid: nat, tag: nat, payload: Bytes)

  /** The frames that the two-byte header fields can express. */
  predicate Fits(f: Frame) {
    f.clid < 65536 && f.tag < 65536 && |f.payload| < 65536
  }

  function ShiftRight(v: nat, places: nat): nat {
    if places == 0 then v else ShiftRight(v / 256, places - 1)
  }

  /** The low sixteen bits, most significant byte first. */
  function Field(v: nat): Bytes {
    [(v / 256 % 256) as byte, (v % 256) as byte]
  }

  function FieldValue(s: Bytes): nat
    requires |s| >= FIELD_BYTES
  {
    s[0] as nat * 256 + s[1] as nat
  }

  function Encode(f: Frame): Bytes {
    Field(f.clid) + Field(f.tag) + Field(|f.payload|) + f.payload
  }

  function EncodeAll(fs: seq<Frame>): Bytes {
    if fs == [] then [] else Encode(fs[0]) + EncodeAll(fs[1..])
  }

  /** The frame at the start of the bytes received so far, once all of it is there. */
  function Decode(s: Bytes): Option<Frame> {
    if |s| < HEADER_BYTES then None
    else
      var n := FieldValue(s[LENGTH_AT..]);
      if |s| < HEADER_BYTES + n then None
      else Some(Frame(FieldValue(s), FieldValue(s[LABEL_AT..]), s[HEADER_BYTES..HEADER_BYTES + n]))
  }

  /** Writes the part of a two-byte field at offset `pos` of a message not yet covered by `done`,
      and offers that part for sending. */
  method FieldToBytes(value: nat, buf: array<byte>, done: nat, pos: nat, iov: seq<Bytes>)
    returns (pushed: bool, out: seq<Bytes>)
    requires buf.Length == FIELD_BYTES
    modifies buf
    ensures pushed <==> done < pos + FIELD_BYTES
    ensures !pushed ==> out == iov && buf[..] == old(buf[..])
    ensures pushed ==> Flatten(out) == Flatten(iov) + Field(value)[if done > pos then done - pos else 0..]
  {
    if done >= pos + FIELD_BYTES {
      return false, iov;
    }
    var m := if done > pos then pos + FIELD_BYTES - done else FIELD_BYTES;
    var first := FIELD_BYTES - m;
    for i := first to FIELD_BYTES
      invariant forall k :: first <= k < i ==> buf[k] == Field(value)[k]
    {
      ShiftIsDivision(value);
      buf[i] := (ShiftRight(value, FIELD_BYTES - 1 - i) % 256) as byte;
    }
    assert buf[first..] == Field(value)[first..];
    FlattenAppend(iov, [buf[first..]]);
    pushed, out := true, iov + [buf[first..]];
  }

  lemma ShiftIsDivision(v: nat)
    ensures ShiftRight(v, 0) == v && ShiftRight(v, 1) == v / 256
  {
    assert ShiftRight(v, 1) == ShiftRight(v / 256, 0);
  }

  /** Looks for a complete message in the first `got` bytes; `at` is where its payload starts. */
  method DecodeMessage(buf: array<byte>, got: nat)
    returns (found: bool, clid: nat, tag: nat, pktlen: nat, at: nat)
    requires got <= buf.Length
    ensures found <==> Decode(buf[..got]).Some?
    ensures found ==> at == HEADER_BYTES && at + pktlen <= got
    ensures found ==> Decode(buf[..got]) == Some(Frame(clid, tag, buf[at..at + pktlen]))
  {
    found, clid, tag, pktlen, at := false, 0, 0, 0, 0;
    if got < HEADER_BYTES { return; }
    pktlen := buf[LENGTH_AT] as nat * 256;
    pktlen := pktlen + buf[LENGTH_AT + 1] as nat;
    ghost var s := buf[..got];
    assert pktlen == FieldValue(s[LENGTH_AT..]);
    if got < HEADER_BYTES + pktlen { return; }
    clid := buf[0] as nat * 256;
    clid := clid + buf[1] as nat;
    tag := buf[LABEL_AT] as nat * 256;
    tag := tag + buf[LABEL_AT + 1] as nat;
    found, at := true, HEADER_BYTES;
    assert s[HEADER_BYTES..HEADER_BYTES + pktlen] == buf[at..at + pktlen];
  }

  /** The layout of a message, octet by octet: three fields of two octets, the most significant first, with the
      low sixteen bits of the client id, the label and the payload's length, and then the payload. */
  lemma Layout(f: Frame)
    ensures var s := Encode(f);
            && |s| == 6 + |f.payload| && s[6..] == f.payload
            && s[0] as nat * 256 + s[1] as nat == f.clid % 65536
            && s[2] as nat * 256 + s[3] as nat == f.tag % 65536
            && s[4] as nat * 256 + s[5] as nat == |f.payload| % 65536
  {
    TwoBytes(f.clid);
    TwoBytes(f.tag);
    TwoBytes(|f.payload|);
  }

  lemma EncodeShape(f: Frame, rest: Bytes)
    ensures |Encode(f)| == HEADER_BYTES + |f.payload|
    ensures var s := Encode(f) + rest;
            FieldValue(s) == f.clid % 65536 && FieldValue(s[LABEL_AT..]) == f.tag % 65536
            && FieldValue(s[LENGTH_AT..]) == |f.payload| % 65536
            && s[HEADER_BYTES..HEADER_BYTES + |f.payload|] == f.payload
  {
    TwoBytes(f.clid);
    TwoBytes(f.tag);
    TwoBytes(|f.payload|);
  }

  lemma TwoBytes(v: nat)
    ensures v / 256 % 256 * 256 + v % 256 == v % 65536
  {
    var q, r := v / 65536, v % 65536;
    assert v == 65536 * q + r;
    assert v / 256 == 256 * q + r / 256;
    assert v % 256 == r % 256;
  }

  /** Decoding gives back what was encoded, whatever follows it, exactly when the three
      header fields can hold the client id, the label and the payload length. */
  lemma DecodeEncode(f: Frame, rest: Bytes)
    ensures Decode(Encode(f) + rest) == Some(f) <==> Fits(f)
  {
    EncodeShape(f, rest);
  }

  /** What is decoded re-encodes to exactly the bytes it was decoded from. */
  lemma EncodeDecode(s: Bytes)
    requires Decode(s).Some?
    ensures var f := Decode(s).value;
            Fits(f) && |Encode(f)| <= |s| && Encode(f) == s[..|Encode(f)|]
  {
    var f := Decode(s).value;
    FieldOfValue(s);
    FieldOfValue(s[LABEL_AT..]);
    FieldOfValue(s[LENGTH_AT..]);
    assert s[..HEADER_BYTES + |f.payload|] == s[..2] + s[2..4] + s[4..6] + f.payload;
  }

  lemma FieldOfValue(s: Bytes)
    requires |s| >= FIELD_BYTES
    ensures Field(FieldValue(s)) == s[..FIELD_BYTES] && FieldValue(s) < 65536
  {
  }

  /** A message is recognised only once its last byte is there, and more bytes never change it. */
  lemma DecodeNeedsAll(f: Frame, n: nat)
    requires Fits(f) && n < |Encode(f)|
    ensures Decode(Encode(f)[..n]) == None
  {
    EncodeShape(f, []);
    var s := Encode(f)[..n];
    assert Encode(f) + [] == Encode(f);
    if n >= HEADER_BYTES {
      assert s[LENGTH_AT] == Encode(f)[LENGTH_AT] && s[LENGTH_AT + 1] == Encode(f)[LENGTH_AT + 1];
    }
  }

  lemma DecodeMore(s: Bytes, more: Bytes)
    requires Decode(s).Some?
    ensures Decode(s + more) == Decode(s)
  {
    var n := FieldValue(s[LENGTH_AT..]);
    assert (s + more)[..HEADER_BYTES + n] == s[..HEADER_BYTES + n];
    assert forall k :: 0 <= k < 2 ==> (s + more)[LENGTH_AT..][k] == s[LENGTH_AT..][k]
                                      && (s + more)[LABEL_AT..][k] == s[LABEL_AT..][k];
    assert (s + more)[HEADER_BYTES..HEADER_BYTES + n] == s[HEADER_BYTES..HEADER_BYTES + n];
  }

  /** Every complete message of a byte stream, left to right, and the bytes left over. */
  datatype Parsed = Parsed(frames: seq<Frame>, rest: Bytes)

  function Parse(s: Bytes): Parsed {
    match Decode(s)
    case None => Parsed([], s)
    case Some(f) =>
      EncodeDecode(s);
      Prepend(f, Parse(s[|Encode(f)|..]))
  }

  lemma ParseFirst(f: Frame, now: Bytes)
    requires Fits(f)
    ensures Parse(Encode(f) + now) == Prepend(f, Parse(now))
  {
    DecodeEncode(f, now);
    assert (Encode(f) + now)[|Encode(f)|..] == now;
  }

  function Prepend(f: Frame, p: Parsed): Parsed {
    Parsed([f] + p.frames, p.rest)
  }

  /** A stream cut in two parses as the first part, then what it left over with the second. */
  function ParseMore(p: Parsed, more: Bytes): Parsed {
    var q := Parse(p.rest + more);
    Parsed(p.frames + q.frames, q.rest)
  }

  lemma {:induction false} ParseSplit(a: Bytes, b: Bytes)
    ensures Parse(a + b) == ParseMore(Parse(a), b)
    ensures Decode(Parse(a).rest) == None
    decreases |a|
  {
    if Decode(a).Some? {
      var f := Decode(a).value;
      EncodeDecode(a);
      DecodeMore(a, b);
      var n := |Encode(f)|;
      assert (a + b)[n..] == a[n..] + b;
      ParseSplit(a[n..], b);
      PrependMore(f, Parse(a[n..]), b);
    }
  }

  lemma EncodeSize(f: Frame)
    ensures |Encode(f)| == HEADER_BYTES + |f.payload|
  {
  }

  /** Nothing is dropped or altered: the frames and the leftover spell the stream they came from. */
  lemma {:induction false} ParseInverse(s: Bytes)
    ensures EncodeAll(Parse(s).frames) + Parse(s).rest == s
    ensures forall f :: f in Parse(s).frames ==> Fits(f)
    decreases |s|
  {
    hide Decode, Encode, Fits, EncodeAll;
    SpellNothing();
    if Decode(s).Some? {
      var f := Decode(s).value;
      EncodeDecode(s);
      EncodeSize(f);
      var tail := s[|Encode(f)|..];
      ParseInverse(tail);
      var p := Parse(tail);
      assert Parse(s) == Prepend(f, p);
      SpellFirst(f, p.frames);
      Regroup(Encode(f), EncodeAll(p.frames), p.rest);
      assert s == Encode(f) + tail;
    }
  }

  lemma Regroup(a: Bytes, b: Bytes, c: Bytes)
    ensures (a + b) + c == a + (b + c)
  {
  }

  lemma SpellNothing()
    ensures EncodeAll([]) == []
  {
  }

  lemma SpellFirst(f: Frame, fs: seq<Frame>)
    ensures EncodeAll([f] + fs) == Encode(f) + EncodeAll(fs)
  {
    assert ([f] + fs)[1..] == fs;
  }

  lemma PrependMore(f: Frame, p: Parsed, more: Bytes)
    ensures ParseMore(Prepend(f, p), more) == Prepend(f, ParseMore(p, more))
  {
    var q := Parse(p.rest + more);
    assert ([f] + p.frames) + q.frames == [f] + (p.frames + q.frames);
  }

  /** Parsing inverts sending: whole frames come back as they were, and an unfinished one waits. */
  lemma {:induction false} ParseEncodeAll(fs: seq<Frame>, tail: Bytes)
    requires forall f :: f in fs ==> Fits(f)
    requires Decode(tail) == None
    ensures Parse(EncodeAll(fs) + tail) == Parsed(fs, tail)
  {
    hide Encode, Decode, Fits, EncodeAll;
    if fs == [] {
      SpellNothing();
      assert EncodeAll(fs) + tail == tail;
    } else {
      var rest := EncodeAll(fs[1..]) + tail;
      assert fs == [fs[0]] + fs[1..];
      SpellFirst(fs[0], fs[1..]);
      assert EncodeAll(fs) + tail == Encode(fs[0]) + rest;
      ParseFirst(fs[0], rest);
      ParseEncodeAll(fs[1..], tail);
    }
  }

  lemma {:induction false} EncodeAllAppend(a: seq<Frame>, b: seq<Frame>)
    ensures EncodeAll(a + b) == EncodeAll(a) + EncodeAll(b)
  {
    if a == [] {
      assert a + b == b;
    } else {
      assert (a + b)[1..] == a[1..] + b;
      EncodeAllAppend(a[1..], b);
    }
  }
}
