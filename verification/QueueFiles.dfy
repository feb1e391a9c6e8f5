// The files of a payload queue in its directory: their names, and finding them again (queues.cc).
module QueueFiles {
  import opened Basics
  import opened Records
  import opened SpillQueue
  import opened QueueRuns

  // ---------- names ----------

  function HexDigit(d: nat): char
    requires d < 16
  {
    if d < 10 then ('0' as int + d) as char else ('a' as int + d - 10) as char
  }

  /** A number in lower-case hexadecimal. */
  function Hex(k: nat): string {
    if k < 16 then [HexDigit(k)] else Hex(k / 16) + [HexDigit(k % 16)]
  }

  function DigitValue(c: char): Option<nat> {
    if '0' <= c <= '9' then Some((c as int - '0' as int) as nat)
    else if 'a' <= c <= 'f' then Some((c as int - 'a' as int + 10) as nat)
    else if 'A' <= c <= 'F' then Some((c as int - 'A' as int + 10) as nat)
    else None
  }

  /** Reading stops at the first character that is not a digit. */
  function ReadHex(s: string, soFar: nat): nat {
    if s == [] || DigitValue(s[0]) == None then soFar
    else ReadHex(s[1..], 16 * soFar + DigitValue(s[0]).value)
  }

  predicate IsSpace(c: char) {
    c == ' ' || 9 <= c as int <= 13
  }

  function SkipSpace(s: string): string {
    if s != [] && IsSpace(s[0]) then SkipSpace(s[1..]) else s
  }

  predicate StartsDigit(s: string) {
    s != [] && DigitValue(s[0]).Some?
  }

  /** 0x counts as a prefix only if a digit follows it. */
  function SkipPrefix(s: string): string {
    if |s| > 2 && s[0] == '0' && (s[1] == 'x' || s[1] == 'X') && StartsDigit(s[2..]) then s[2..] else s
  }

  const KEY_LIMIT := 0x8000_0000_0000_0000  // numbers are read as signed, of sixty-four bits

  /** The key in the stem of a file name, as the library reads a signed number: with white space and a
      sign in front, perhaps a prefix, and anything behind; nothing if there are no digits or the number
      is out of range.  A negative number goes round to a large key. */
  function ReadKey(stem: string): Option<nat> {
    var s := SkipSpace(stem);
    var minus := s != [] && s[0] == '-';
    var digits := SkipPrefix(if s != [] && (s[0] == '-' || s[0] == '+') then s[1..] else s);
    var v := ReadHex(digits, 0);
    if !StartsDigit(digits) then None
    else if minus then if v > KEY_LIMIT then None else Some(if v == 0 then 0 else WORD - v)
    else if v >= KEY_LIMIT then None
    else Some(v)
  }

  lemma DigitInverse(d: nat)
    requires d < 16
    ensures DigitValue(HexDigit(d)) == Some(d)
  {
  }

  lemma {:induction false} ReadMore(s: string, d: nat, soFar: nat)
    requires d < 16 && forall i :: 0 <= i < |s| ==> DigitValue(s[i]).Some?
    ensures ReadHex(s + [HexDigit(d)], soFar) == 16 * ReadHex(s, soFar) + d
  {
    DigitInverse(d);
    if s == [] {
      assert s + [HexDigit(d)] == [HexDigit(d)];
    } else {
      assert (s + [HexDigit(d)])[1..] == s[1..] + [HexDigit(d)];
      ReadMore(s[1..], d, 16 * soFar + DigitValue(s[0]).value);
    }
  }

  /** The number printed in a file name is read back from it. */
  lemma {:induction false} ReadInverse(k: nat)
    ensures ReadHex(Hex(k), 0) == k
    ensures forall i :: 0 <= i < |Hex(k)| ==> DigitValue(Hex(k)[i]).Some?
  {
    DigitInverse(k % 16);
    if k < 16 {
      assert k % 16 == k;
      ReadMore([], k, 0);
      assert [] + [HexDigit(k)] == [HexDigit(k)];
    } else {
      ReadInverse(k / 16);
      ReadMore(Hex(k / 16), k % 16, 0);
    }
  }

  const SUFFIX := ".queue"

  function Name(key: nat): string {
    Hex(key) + SUFFIX
  }

  predicate IsQueueFile(name: string) {
    |name| > |SUFFIX| && name[|name| - |SUFFIX|..] == SUFFIX
  }

  /** The key of a queue file, if its name has one. */
  function KeyOf(name: string): Option<nat>
    requires IsQueueFile(name)
  {
    ReadKey(name[..|name| - |SUFFIX|])
  }

  /** The name that a queue gives to a file is read back as its key, unless that is too large. */
  lemma NameInverse(key: nat)
    ensures IsQueueFile(Name(key))
    ensures KeyOf(Name(key)) == if key < 0x8000_0000_0000_0000 then Some(key) else None
  {
    var hex := Hex(key);
    HexNotEmpty(key);
    ReadInverse(key);
    assert Name(key)[..|Name(key)| - |SUFFIX|] == hex;
    assert DigitValue(hex[0]).Some?;
    assert SkipSpace(hex) == hex;
    assert |hex| > 1 ==> DigitValue(hex[1]).Some?;
    assert SkipPrefix(hex) == hex;
  }

  lemma HexNotEmpty(key: nat)
    ensures |Hex(key)| > 0
  {
  }

  /** Names are in lower case, without leading zeros, and end in .queue. */
  lemma {:induction false} NameShape(key: nat)
    ensures Name(key) == Hex(key) + ".queue"
    ensures forall i :: 0 <= i < |Hex(key)| ==> '0' <= Hex(key)[i] <= '9' || 'a' <= Hex(key)[i] <= 'f'
    ensures key > 0 ==> Hex(key)[0] != '0'
  {
    if key >= 16 {
      NameShape(key / 16);
      HexNotEmpty(key / 16);
    }
  }

  lemma NameExample()
    ensures Name(0) == "0.queue" && Name(0x1a9) == "1a9.queue"
    ensures IsQueueFile("x.queue") && !IsQueueFile(".queue") && !IsQueueFile("1a.queue~")
  {
    assert "x.queue"[1..] == ".queue" && "1a.queue~"[3..] == "queue~";
    assert Hex(1) == "1";
    assert Hex(0x1a) == Hex(1) + [HexDigit(10)] == "1a";
    assert Hex(0x1a9) == Hex(0x1a) + [HexDigit(9)] == "1a9";
  }

  lemma ReadOne(s: string, c: char, rest: string, soFar: nat)
    requires s == [c] + rest
    ensures ReadHex(s, soFar) ==
            if DigitValue(c) == None then soFar else ReadHex(rest, 16 * soFar + DigitValue(c).value)
  {
    assert s[1..] == rest;
  }

  /** Upper case is read as well as lower case, and white space, a sign and a prefix are passed over. */
  lemma ReadExample()
    ensures ReadKey("\t +0x1A.b") == Some(0x1a)
  {
    ReadOne("1A.b", '1', "A.b", 0);
    ReadOne("A.b", 'A', ".b", 1);
    ReadOne(".b", '.', "b", 0x1a);
    assert ReadHex("1A.b", 0) == 0x1a;
    hide ReadHex;
    assert "\t +0x1A.b"[1..] == " +0x1A.b" && " +0x1A.b"[1..] == "+0x1A.b";
    assert SkipSpace("\t +0x1A.b") == SkipSpace(" +0x1A.b") == SkipSpace("+0x1A.b") == "+0x1A.b";
    hide SkipSpace;
    assert "+0x1A.b"[1..] == "0x1A.b";
    assert SkipPrefix("0x1A.b") == "1A.b";
  }

  /** A negative number goes round, unless it is out of range. */
  lemma NegativeInverse(k: nat)
    ensures ReadKey("-" + Hex(k)) ==
            if k > 0x8000_0000_0000_0000 then None else if k == 0 then Some(0) else Some(0x1_0000_0000_0000_0000 - k)
  {
    var hex := Hex(k);
    HexNotEmpty(k);
    ReadInverse(k);
    assert DigitValue(hex[0]).Some? && (|hex| > 1 ==> DigitValue(hex[1]).Some?);
    assert SkipPrefix(hex) == hex;
    assert ("-" + hex)[1..] == hex;
    assert SkipSpace("-" + hex) == "-" + hex;
  }

  /** Without a digit at its place there is no key. */
  lemma NoKey(stem: string)
    requires stem == "" || stem == "g1" || stem == "- 1" || stem == "-"
    ensures ReadKey(stem) == None
  {
    hide ReadHex;
    if stem != "" && stem != "g1" { assert stem[1..] == "" || stem[1..] == " 1"; }
  }

  // ---------- directories ----------

  /** The key of every queue file can be read. */
  predicate Readable(dir: map<string, Bytes>) {
    forall n :: n in dir && IsQueueFile(n) ==> KeyOf(n).Some?
  }

  /** No two queue files have the same key. */
  predicate Distinct(dir: map<string, Bytes>) {
    forall m, n :: m in dir && n in dir && IsQueueFile(m) && IsQueueFile(n) && KeyOf(m) == KeyOf(n) ==> m == n
  }

  /** A file is in the directory under a name that gives its key. */
  predicate Under(name: string, dir: map<string, Bytes>, f: File) {
    name in dir && IsQueueFile(name) && KeyOf(name) == Some(f.key) && dir[name] == f.bytes
  }

  predicate Found(dir: map<string, Bytes>, f: File) {
    exists n :: n in dir && Under(n, dir, f)
  }

  predicate Listed(files: seq<File>, key: Option<nat>) {
    exists i :: 0 <= i < |files| && Some(files[i].key) == key
  }

  /** The files are queue files of the directory, in the order of their keys, one for every key. */
  ghost predicate Lists(files: seq<File>, dir: map<string, Bytes>) {
    && Ascending(files)
    && (forall f :: f in files ==> Found(dir, f))
    && (forall n :: n in dir && IsQueueFile(n) ==> Listed(files, KeyOf(n)))
  }

  /** There is only one such listing, if no two files have the same key. */
  lemma {:induction false} ListingUnique(a: seq<File>, b: seq<File>, dir: map<string, Bytes>)
    requires Lists(a, dir) && Lists(b, dir) && Distinct(dir)
    ensures a == b
  {
    hide IsQueueFile, KeyOf, Distinct;
    SameFiles(a, b, dir);
    SameFiles(b, a, dir);
    AscendingUnique(a, b);
  }

  lemma SameFiles(a: seq<File>, b: seq<File>, dir: map<string, Bytes>)
    requires Lists(a, dir) && Lists(b, dir) && Distinct(dir)
    ensures forall f :: f in a ==> f in b
  {
    hide IsQueueFile, KeyOf;
    forall f | f in a ensures f in b {
      var n :| n in dir && Under(n, dir, f);
      var j :| 0 <= j < |b| && Some(b[j].key) == KeyOf(n);
      assert b[j] in b;
      var m :| m in dir && Under(m, dir, b[j]);
      assert m == n && b[j] == f;
    }
  }

  lemma {:induction false} AscendingUnique(a: seq<File>, b: seq<File>)
    requires Ascending(a) && Ascending(b)
    requires (forall f :: f in a ==> f in b) && (forall f :: f in b ==> f in a)
    ensures a == b
  {
    if a == [] {
      assert forall i :: 0 <= i < |b| ==> b[i] in a;
    } else {
      assert a[0] in b;
      assert b[0] in a;
      assert a[0] == b[0];
      forall f | f in a[1..] ensures f in b[1..] {
        assert f in b && f.key > a[0].key;
      }
      forall f | f in b[1..] ensures f in a[1..] {
        assert f in a && f.key > b[0].key;
      }
      AscendingUnique(a[1..], b[1..]);
      assert a == [a[0]] + a[1..] && b == [b[0]] + b[1..];
    }
  }

  /** The directory holds these files under the names that a queue gives them, and no other queue files. */
  ghost predicate Holds(dir: map<string, Bytes>, files: seq<File>) {
    && (forall f :: f in files ==> Name(f.key) in dir && dir[Name(f.key)] == f.bytes)
    && (forall n :: n in dir && IsQueueFile(n) ==> exists f :: f in files && n == Name(f.key))
  }

  /** The keys of such files are read back, or are too large. */
  lemma HeldKeys(dir: map<string, Bytes>, files: seq<File>)
    requires Holds(dir, files)
    ensures forall f :: f in files ==>
              && IsQueueFile(Name(f.key))
              && KeyOf(Name(f.key)) == if f.key < KEY_LIMIT then Some(f.key) else None
  {
    hide Name, IsQueueFile, KeyOf;
    forall f | f in files
      ensures IsQueueFile(Name(f.key)) && KeyOf(Name(f.key)) == if f.key < KEY_LIMIT then Some(f.key) else None
    {
      NameInverse(f.key);
    }
  }

  lemma HeldReadable(dir: map<string, Bytes>, files: seq<File>)
    requires Holds(dir, files)
    ensures Readable(dir) <==> forall f :: f in files ==> f.key < KEY_LIMIT
  {
    hide Name, IsQueueFile, KeyOf;
    HeldKeys(dir, files);
    if Readable(dir) {
      forall f | f in files ensures f.key < KEY_LIMIT {
        assert Name(f.key) in dir;
      }
    }
  }

  /** What is left in a directory is what is found again, if the keys can be read. */
  lemma HeldListed(dir: map<string, Bytes>, files: seq<File>)
    requires Holds(dir, files) && Ascending(files) && Readable(dir)
    ensures Lists(files, dir) && Distinct(dir)
  {
    hide Name, IsQueueFile, KeyOf, Ascending;
    HeldKeys(dir, files);
    HeldReadable(dir, files);
    forall n | n in dir && IsQueueFile(n) ensures Listed(files, KeyOf(n)) {
      var f :| f in files && n == Name(f.key);
      InListed(files, f);
    }
    forall f | f in files ensures Found(dir, f) {
      assert Under(Name(f.key), dir, f);
    }
    forall m, n | m in dir && n in dir && IsQueueFile(m) && IsQueueFile(n) && KeyOf(m) == KeyOf(n) ensures m == n {
      var f :| f in files && m == Name(f.key);
      var g :| g in files && n == Name(g.key);
      assert f.key == g.key;
    }
  }

  /** Every key that the queue has, or may choose, can be read back. */
  predicate Keyed(q: Queue, now: nat) {
    now < KEY_LIMIT && forall f :: f in q.files ==> f.key < KEY_LIMIT
  }

  /** Restart through the directory: a destroyed queue leaves files that can be listed again if and only if it
      had nothing in memory or its first key was not zero; and whoever lists them, beside any files of
      other kinds, builds a queue with the same records in the same order. */
  lemma RestartThroughDirectory(q: Queue, now: nat, dir: map<string, Bytes>, found: seq<File>)
    requires Valid(q) && Keyed(q, now) && Holds(dir, Shutdown(q, now))
    ensures Readable(dir) <==> Restartable(q, now)
    ensures Readable(dir) && Lists(found, dir) ==>
            var r := Startup(q.maxMem, found);
            Valid(r) && Contents(r) == Contents(q) && r.amount == DiscUse(r.files, r.out)
  {
    hide Valid, Contents, Lists, Shutdown, Holds, Readable, Distinct;
    ShutdownKeys(q, now);
    HeldReadable(dir, Shutdown(q, now));
    if Readable(dir) && Lists(found, dir) {
      HeldListed(dir, Shutdown(q, now));
      ListingUnique(found, Shutdown(q, now), dir);
      RestartKeeps(q, now);
    }
  }

  lemma ShutdownKeys(q: Queue, now: nat)
    requires Valid(q) && Keyed(q, now)
    ensures Ascending(Shutdown(q, now))
    ensures Restartable(q, now) <==> forall f :: f in Shutdown(q, now) ==> f.key < KEY_LIMIT
  {
    hide SaveAll, CloseOut, Insert, LoadAll, Whole, Small;
    CloseKeeps(q);
    var c := CloseOut(q);
    forall i | 0 <= i < |c.files| ensures i < |q.files| && c.files[i].key == q.files[i].key {
      assert SameFile(q.files[i], q.out, c.files[i], c.out);
    }
    forall f | f in c.files ensures f.key < KEY_LIMIT {
      var i :| 0 <= i < |c.files| && c.files[i] == f;
      assert q.files[i] in q.files;
    }
    if q.mem != [] {
      var saved := File(KeyBefore(ShutdownKey(q, now)), SaveAll(q.mem));
      if q.files != [] { assert q.files[0] in q.files; }
      if Restartable(q, now) {
        ShutdownFirst(q, now);
      } else {
        InsertEffect(c.files, saved);
        assert saved in Shutdown(q, now);
      }
    }
  }

  // ---------- the ordered map of files ----------

  /** A file goes to its place in the order of the keys, instead of any other under its key. */
  lemma {:induction false} InsertEffect(files: seq<File>, f: File)
    requires Ascending(files)
    ensures Ascending(Insert(files, f))
    ensures forall g :: g in Insert(files, f) <==> g == f || (g in files && g.key != f.key)
  {
    if files == [] {
    } else {
      var first, rest := files[0], files[1..];
      assert files == [first] + rest;
      assert forall g :: g in rest ==> g.key > first.key;
      if f.key > first.key {
        var tail := Insert(rest, f);
        InsertEffect(rest, f);
        assert Insert(files, f) == [first] + tail;
        forall i | 0 <= i < |tail| ensures tail[i].key > first.key {
          assert tail[i] in tail;
        }
      } else if f.key == first.key {
        assert Insert(files, f) == [f] + rest;
      } else {
        assert Insert(files, f) == [f] + files;
      }
    }
  }

  lemma {:induction false} InsertSize(files: seq<File>, f: File)
    ensures DiscUse(Insert(files, f), Closed) <= DiscUse(files, Closed) + |f.bytes|
    ensures (forall g :: g in files ==> g.key != f.key) ==>
              DiscUse(Insert(files, f), Closed) == DiscUse(files, Closed) + |f.bytes|
  {
    CompleteClosed(f);
    if files == [] {
      assert DiscUse([f], Closed) == |f.bytes|;
    } else {
      hide Complete;
      var first, rest := files[0], files[1..];
      CompleteClosed(first);
      if f.key > first.key {
        InsertSize(rest, f);
        assert Insert(files, f)[1..] == Insert(rest, f);
      } else if f.key == first.key {
        assert Insert(files, f)[1..] == rest && first in files;
      } else {
        assert Insert(files, f)[1..] == files;
      }
    }
  }

  /** One more queue file is found. */
  lemma ListsNext(files: seq<File>, dir: map<string, Bytes>, name: string, bytes: Bytes)
    requires Lists(files, dir) && name !in dir && IsQueueFile(name) && KeyOf(name).Some?
    ensures var f := File(KeyOf(name).value, bytes);
            && Lists(Insert(files, f), dir[name := bytes])
            && DiscUse(Insert(files, f), Closed) <= DiscUse(files, Closed) + |bytes|
            && (Distinct(dir[name := bytes]) ==>
                  DiscUse(Insert(files, f), Closed) == DiscUse(files, Closed) + |bytes|)
  {
    hide IsQueueFile, KeyOf, Insert, DiscUse;
    var f, more := File(KeyOf(name).value, bytes), dir[name := bytes];
    var now := Insert(files, f);
    InsertEffect(files, f);
    InsertSize(files, f);
    forall g | g in now ensures Found(more, g) {
      if g == f {
        assert Under(name, more, g);
      } else {
        var n :| n in dir && Under(n, dir, g);
        assert Under(n, more, g);
      }
    }
    forall n | n in more && IsQueueFile(n) ensures Listed(now, KeyOf(n)) {
      if KeyOf(n) == Some(f.key) {
        InListed(now, f);
      } else {
        var i :| 0 <= i < |files| && Some(files[i].key) == KeyOf(n);
        assert files[i] in files;
        InListed(now, files[i]);
      }
    }
    if Distinct(more) {
      forall g | g in files ensures g.key != f.key {
        var n :| n in dir && Under(n, dir, g);
        assert n in more && name in more && n != name;
      }
    }
  }

  lemma InListed(files: seq<File>, f: File)
    requires f in files
    ensures Listed(files, Some(f.key))
  {
    var i :| 0 <= i < |files| && files[i] == f;
    assert Some(files[i].key) == Some(f.key);
  }

  /** Another file does not matter. */
  lemma ListsOther(files: seq<File>, dir: map<string, Bytes>, name: string, bytes: Bytes)
    requires Lists(files, dir) && name !in dir && !IsQueueFile(name)
    ensures Lists(files, dir[name := bytes])
  {
    hide IsQueueFile, KeyOf, Ascending;
    forall g | g in files ensures Found(dir[name := bytes], g) {
      var n :| n in dir && Under(n, dir, g);
      assert Under(n, dir[name := bytes], g);
    }
  }
}
