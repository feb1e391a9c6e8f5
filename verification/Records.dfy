// The on-disc form of queued payloads: Payload::save and Payload::load (payloads.cc).
module Records {
  import opened Basics
  import opened Wire

  /** One record: its length in two bytes, then its contents. */
  function Save(p: Bytes): Bytes {
    Field(|p|) + p
  }

  function SaveAll(ps: seq<Bytes>): Bytes {
    if ps == [] then [] else Save(ps[0]) + SaveAll(ps[1..])
  }

  /** The first record of a stream, if all of it is there. */
  function LoadOne(s: Bytes): Option<Bytes> {
    if |s| < FIELD_BYTES then None
    else
      var n := FieldValue(s);
      if |s| < FIELD_BYTES + n then None else Some(s[FIELD_BYTES..FIELD_BYTES + n])
  }

  /** Records are loaded until one is incomplete. */
  function LoadAll(s: Bytes): seq<Bytes> {
    match LoadOne(s)
    case None => []
    case Some(p) => [p] + LoadAll(s[FIELD_BYTES + |p|..])
  }

  function TotalLength(ps: seq<Bytes>): nat {
    if ps == [] then 0 else |ps[0]| + TotalLength(ps[1..])
  }

  /** The memory that records take up is that of their octets. */
  lemma {:induction false} TotalIsFlat(ps: seq<Bytes>)
    ensures TotalLength(ps) == |Flatten(ps)|
  {
    if ps == [] {
    } else {
      TotalIsFlat(ps[1..]);
    }
  }

  /** The bytes that saved records take up. */
  function StoredSize(ps: seq<Bytes>): nat {
    if ps == [] then 0 else FIELD_BYTES + |ps[0]| + StoredSize(ps[1..])
  }

  predicate Storable(ps: seq<Bytes>) {
    forall p :: p in ps ==> |p| < 65536
  }

  /** A file that holds whole records and nothing else. */
  predicate Whole(s: Bytes) {
    SaveAll(LoadAll(s)) == s
  }

  /** A saved record loads back as it was exactly when two bytes can hold its length. */
  lemma LoadSave(p: Bytes, rest: Bytes)
    ensures LoadOne(Save(p) + rest) == Some(p) <==> |p| < 65536
  {
    TwoBytes(|p|);
    var s := Save(p) + rest;
    assert FieldValue(s) == |p| % 65536;
    if |p| < 65536 {
      assert s[FIELD_BYTES..FIELD_BYTES + |p|] == p;
    }
  }

  /** The layout of a record: its length in two octets, the most significant first, and then its contents. */
  lemma SaveLayout(p: Bytes)
    ensures var s := Save(p);
            |s| == 2 + |p| && s[0] as nat * 256 + s[1] as nat == |p| % 65536 && s[2..] == p
  {
    TwoBytes(|p|);
  }

  lemma LoadOneShape(s: Bytes)
    requires LoadOne(s).Some?
    ensures var p := LoadOne(s).value;
            |p| < 65536 && FIELD_BYTES + |p| <= |s| && Save(p) == s[..FIELD_BYTES + |p|]
  {
    FieldOfValue(s);
  }

  lemma LoadNeedsAll(p: Bytes, n: nat)
    requires |p| < 65536 && n < |Save(p)|
    ensures LoadOne(Save(p)[..n]) == None
  {
    LoadSave(p, []);
  }

  /** How many of the records lie wholly inside the first `n` bytes of their file. */
  function WholeWithin(ps: seq<Bytes>, n: nat): (k: nat)
    ensures k <= |ps| && StoredSize(ps[..k]) <= n
    ensures k < |ps| ==> n < StoredSize(ps[..k + 1])
  {
    if ps == [] || n < FIELD_BYTES + |ps[0]| then 0
    else
      var k := WholeWithin(ps[1..], n - FIELD_BYTES - |ps[0]|);
      assert ps[..k + 1][1..] == ps[1..][..k];
      assert k + 1 < |ps| ==> ps[..k + 2][1..] == ps[1..][..k + 1];
      1 + k
  }

  lemma {:induction false} AllWithin(ps: seq<Bytes>, n: nat)
    ensures WholeWithin(ps, n) == |ps| <==> StoredSize(ps) <= n
  {
    if ps != [] && n >= FIELD_BYTES + |ps[0]| {
      AllWithin(ps[1..], n - FIELD_BYTES - |ps[0]|);
    }
  }

  lemma {:induction false} SaveAllSize(ps: seq<Bytes>)
    ensures |SaveAll(ps)| == StoredSize(ps)
  {
    if ps == [] {
    } else {
      SaveAllSize(ps[1..]);
    }
  }

  lemma SaveSize(p: Bytes)
    ensures |Save(p)| == FIELD_BYTES + |p|
  {
  }

  lemma LoadNext(p: Bytes, tail: Bytes)
    requires |p| < 65536
    ensures LoadAll(Save(p) + tail) == [p] + LoadAll(tail)
  {
    LoadSave(p, tail);
    assert (Save(p) + tail)[FIELD_BYTES + |p|..] == tail;
  }

  /** Loading any prefix of a saved file gives exactly the records wholly inside that prefix. */
  lemma {:induction false} LoadPrefix(ps: seq<Bytes>, n: nat)
    requires Storable(ps) && n <= |SaveAll(ps)|
    ensures LoadAll(SaveAll(ps)[..n]) == ps[..WholeWithin(ps, n)]
    decreases ps
  {
    hide LoadOne, Save, LoadAll, WholeWithin;
    if ps == [] {
      LoadNothing();
      assert SaveAll(ps)[..n] == [] && ps[..WholeWithin(ps, n)] == [];
    } else {
      var p, rest := ps[0], ps[1..];
      assert p in ps && forall r :: r in rest ==> r in ps;
      SaveSize(p);
      WithinNext(ps, n);
      var size := FIELD_BYTES + |p|;
      if n < size {
        assert SaveAll(ps)[..n] == Save(p)[..n];
        LoadNeedsAll(p, n);
        LoadFails(Save(p)[..n]);
      } else {
        var tail := SaveAll(rest)[..n - size];
        assert SaveAll(ps)[..n] == Save(p) + tail;
        LoadNext(p, tail);
        LoadPrefix(rest, n - size);
      }
    }
  }

  lemma WithinNext(ps: seq<Bytes>, n: nat)
    requires ps != []
    ensures var size := FIELD_BYTES + |ps[0]|;
            ps[..WholeWithin(ps, n)] == if n < size then [] else [ps[0]] + ps[1..][..WholeWithin(ps[1..], n - size)]
  {
  }

  lemma LoadFails(s: Bytes)
    requires LoadOne(s) == None
    ensures LoadAll(s) == []
  {
  }

  lemma LoadNothing()
    ensures LoadAll([]) == []
  {
  }

  /** In particular the whole file loads back in full. */
  lemma LoadSaveAll(ps: seq<Bytes>)
    requires Storable(ps)
    ensures LoadAll(SaveAll(ps)) == ps && Whole(SaveAll(ps))
    ensures |SaveAll(ps)| == StoredSize(ps)
  {
    hide LoadAll;
    var n := StoredSize(ps);
    SaveAllSize(ps);
    AllWithin(ps, n);
    LoadPrefix(ps, n);
    assert SaveAll(ps)[..n] == SaveAll(ps);
  }

  lemma {:induction false} StoredSizeSplit(a: seq<Bytes>, b: seq<Bytes>)
    ensures StoredSize(a + b) == StoredSize(a) + StoredSize(b)
    ensures TotalLength(a + b) == TotalLength(a) + TotalLength(b)
  {
    if a == [] {
      assert a + b == b;
    } else {
      assert (a + b)[1..] == a[1..] + b;
      StoredSizeSplit(a[1..], b);
    }
  }

  lemma {:induction false} LoadedShape(s: Bytes)
    ensures Storable(LoadAll(s))
    ensures TotalLength(LoadAll(s)) <= StoredSize(LoadAll(s)) <= |s|
    ensures StoredSize(LoadAll(s)) == |s| <==> Whole(s)
    ensures SaveAll(LoadAll(s)) <= s
    decreases |s|
  {
    if LoadOne(s).Some? {
      var p := LoadOne(s).value;
      LoadOneShape(s);
      var tail := s[FIELD_BYTES + |p|..];
      LoadedShape(tail);
      assert LoadAll(s)[1..] == LoadAll(tail);
      assert s == Save(p) + tail;
      assert SaveAll(LoadAll(s)) == Save(p) + SaveAll(LoadAll(tail));
    }
  }

  lemma {:induction false} LoadAfter(ps: seq<Bytes>, b: Bytes)
    requires Storable(ps)
    ensures LoadAll(SaveAll(ps) + b) == ps + LoadAll(b)
  {
    hide LoadOne, Save, LoadAll;
    if ps == [] {
      assert SaveAll(ps) + b == b;
    } else {
      assert ps[0] in ps && forall r :: r in ps[1..] ==> r in ps;
      LoadAfter(ps[1..], b);
      assert SaveAll(ps) + b == Save(ps[0]) + (SaveAll(ps[1..]) + b);
      LoadNext(ps[0], SaveAll(ps[1..]) + b);
    }
  }

  /** After whole records, loading goes on with what follows them. */
  lemma LoadAppend(a: Bytes, b: Bytes)
    requires Whole(a)
    ensures LoadAll(a + b) == LoadAll(a) + LoadAll(b)
  {
    hide LoadAll;
    LoadedShape(a);
    LoadAfter(LoadAll(a), b);
  }

  /** Cutting a file of whole records short loses records, but only from the end. */
  lemma CutShort(s: Bytes, n: nat)
    requires Whole(s) && n <= |s|
    ensures LoadAll(s[..n]) <= LoadAll(s)
    ensures LoadAll(s[..n]) == LoadAll(s) <==> n == |s|
  {
    hide LoadAll;
    var ps := LoadAll(s);
    LoadedShape(s);
    LoadPrefix(ps, n);
    AllWithin(ps, n);
    assert s[..|s|] == s;
  }
}
