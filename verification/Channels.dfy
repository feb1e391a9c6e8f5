// What a channel's operations do (channels.cc): queued records become frames that can be sent
// piecemeal.
module Channels {
  import opened Basics
  import opened Wire
  import opened SpillQueue

  // ---------- queue entries ----------

  /** The size of a client id in memory: clid_t is uint_fast16_t, eight bytes on 64-bit glibc. */
  const CLID_SIZE := 8

  function Little(v: nat, n: nat): Bytes {
    if n == 0 then [] else [(v % 256) as byte] + Little(v / 256, n - 1)
  }

  function LittleValue(s: Bytes): nat {
    if s == [] then 0 else s[0] as nat + 256 * LittleValue(s[1..])
  }

  function Limit(n: nat): nat {
    if n == 0 then 1 else 256 * Limit(n - 1)
  }

  lemma {:induction false} LittleInverse(v: nat, n: nat)
    ensures |Little(v, n)| == n
    ensures v < Limit(n) ==> LittleValue(Little(v, n)) == v
  {
    if n == 0 {
    } else {
      LittleInverse(v / 256, n - 1);
      assert Little(v, n)[1..] == Little(v / 256, n - 1);
    }
  }

  lemma Limits()
    ensures Limit(8) == 0x1_0000_0000_0000_0000
  {
    assert Limit(4) == 0x1_0000_0000;
  }

  /** The entry that keeps a datagram with the id of the client that it came from. */
  function Entry(clid: nat, payload: Bytes): Bytes {
    Little(clid, CLID_SIZE) + payload
  }

  /** The message that carries a queue entry under a channel's label: only the low sixteen bits of
      the client id go into it. */
  function FrameOf(tag: nat, entry: Bytes): Frame
    requires |entry| >= CLID_SIZE
  {
    Frame(LittleValue(entry[..CLID_SIZE]) % 65536, tag, entry[CLID_SIZE..])
  }

  lemma EntryFrame(clid: nat, tag: nat, payload: Bytes)
    requires clid < 0x1_0000_0000_0000_0000
    ensures |Entry(clid, payload)| == 8 + |payload| && Entry(clid, payload)[8..] == payload
    ensures Entry(clid, payload)[0] as nat == clid % 256 && Entry(clid, payload)[1] as nat == clid / 256 % 256
    ensures FrameOf(tag, Entry(clid, payload)) == Frame(clid % 65536, tag, payload)
  {
    LittleInverse(clid, CLID_SIZE);
    assert Limit(8) == 0x1_0000_0000_0000_0000 by { Limits(); }
    assert Little(clid, 8)[1] == Little(clid / 256, 7)[0];
    var e := Entry(clid, payload);
    assert e[..CLID_SIZE] == Little(clid, CLID_SIZE) && e[CLID_SIZE..] == payload;
  }

  lemma EntrySize(clid: nat, payload: Bytes)
    ensures |Entry(clid, payload)| == CLID_SIZE + |payload|
  {
    LittleInverse(clid, CLID_SIZE);
  }

  /** What every entry in a queue is: a client id and a datagram, perhaps an empty one, and short
      enough for disc. */
  predicate Good(entry: Bytes) {
    CLID_SIZE <= |entry| <= MAX_RECORD
  }

  /** The datagram is not empty. */
  predicate Full(entry: Bytes) {
    CLID_SIZE < |entry|
  }

  lemma GoodFits(tag: nat, entry: Bytes)
    requires Good(entry) && tag < 65536
    ensures Fits(FrameOf(tag, entry)) && (FrameOf(tag, entry).payload != [] <==> Full(entry))
    ensures |Encode(FrameOf(tag, entry))| == HEADER_BYTES + |entry| - CLID_SIZE
  {
  }

  /** Any datagram of a socket makes such an entry. */
  lemma GoodExactly(clid: nat, payload: Bytes)
    ensures Good(Entry(clid, payload)) <==> |payload| <= 65527
  {
    EntrySize(clid, payload);
  }

  /** How many bytes of an entry's datagram are unsent once `done` bytes of its message have gone. */
  function Unsent(entry: Bytes, done: nat): (m: int)
    requires |entry| >= CLID_SIZE
  {
    var size := |entry| - CLID_SIZE;
    if done > HEADER_BYTES then HEADER_BYTES + size - done else size
  }

  /** The three assertions of describe(), on the entry that it presents. */
  predicate Presentable(entry: Bytes, done: nat) {
    |entry| >= CLID_SIZE && |entry| - CLID_SIZE <= 0xffff && Unsent(entry, done) > 0
  }

  /** Wherever in its message an entry has got to, it can be presented if and only if its datagram
      is neither empty nor longer than the length field can say. */
  lemma PresentableExactly(entry: Bytes, done: nat)
    requires |entry| >= CLID_SIZE ==> done < HEADER_BYTES + |entry| - CLID_SIZE
    ensures Presentable(entry, done) <==> 8 < |entry| <= 65543
    ensures Full(entry) <==> |entry| > 8
  {
  }

  /** The empty datagram of any client is an entry like others, but cannot be presented. */
  lemma EmptyDatagram(clid: nat)
    ensures Good(Entry(clid, [])) && !Presentable(Entry(clid, []), 0)
  {
    EntrySize(clid, []);
  }

  // ---------- the channel ----------

  datatype Chan = Chan(
    tag: nat,               // the label
    q: Queue,
    held: bool,             // current != nullptr: the queue's head has been offered
    done: nat,              // how many bytes of its frame have been sent
    pending: bool,          // queue_event is waiting, idle or queued, to call queue_ready
    live: bool,             // activate() has been called
    submitted: seq<Bytes>)  // every entry the queue started with or was given

  predicate ChanValid(c: Chan) {
    && c.tag < 65536
    && Valid(c.q)
    && (forall e :: e in Contents(c.q) ==> Good(e))
    && (c.held ==> c.q.mem != [] && Good(c.q.mem[0]) && c.done < |Encode(FrameOf(c.tag, c.q.mem[0]))|)
  }

  function Head(c: Chan): Frame
    requires c.held && c.q.mem != [] && Good(c.q.mem[0])
  {
    FrameOf(c.tag, c.q.mem[0])
  }

  /** Takes up the head of the queue, unless one is already being sent. */
  function Describe(c: Chan): Chan {
    if c.held then c
    else
      var q := Peek(c.q);
      if q.mem == [] then c.(q := q) else c.(q := q, held := true, done := 0)
  }

  /** What is taken up, if anything, can be presented. */
  predicate Describable(c: Chan) {
    var d := Describe(c);
    d.held && d.q.mem != [] ==> Presentable(d.q.mem[0], d.done)
  }

  /** The bytes offered for sending: what is left of the frame. */
  function Offer(c: Chan): Bytes
    requires ChanValid(c) && c.held
  {
    Encode(Head(c))[c.done..]
  }

  function Poke(c: Chan): Chan {
    var q := Peek(c.q);
    c.(q := q, pending := c.pending || q.mem != [])
  }

  function Consumed(c: Chan, n: nat): Chan
    requires ChanValid(c) && c.held
  {
    var d := c.(done := c.done + n);
    if d.done == |Encode(Head(c))| then Poke(d.(q := Consume(c.q), held := false)) else d
  }

  function Failed(c: Chan): Chan {
    c.(held := false)
  }

  function Submit(c: Chan, clid: nat, payload: Bytes, now: nat, flush: nat): Chan {
    var entry := Entry(clid, payload);
    c.(q := Push(c.q, entry, now, flush), pending := c.pending || PushWakes(c.q, entry),
       submitted := c.submitted + [entry])
  }

  function Activate(c: Chan): Chan {
    Poke(c).(live := true)
  }

  /** Nothing is queued, and the next push will raise the alarm. */
  predicate Waiting(q: Queue) {
    q.mem == [] && q.files == [] && q.disappointed
  }
}
