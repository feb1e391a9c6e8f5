// The table of client ids (clientid.cc): two maps that mirror each other, the search for an id that
// is free, and the purge of clients that have gone quiet.
module ClientIds {
  import opened Basics

  /** Addresses only matter as keys. */
  type Address = nat

  datatype Entry = Entry(addr: Address, lastUsed: nat)

  /** The two maps are inverse to each other. */
  ghost predicate Mirrors(fwd: map<nat, Entry>, rev: map<Address, nat>) {
    && (forall id :: id in fwd ==> fwd[id].addr in rev && rev[fwd[id].addr] == id)
    && (forall a :: a in rev ==> rev[a] in fwd && fwd[rev[a]].addr == a)
  }

  /** The id that is `d` places on, in a space of `size` ids that wraps round. */
  function Along(id: nat, d: nat, size: nat): (r: nat)
    requires id < size && d <= size
    ensures r < size && (r == id + d || r + size == id + d)
  {
    if id + d < size then id + d else id + d - size
  }

  /** The ids from one on, going round, are taken for so many places. */
  predicate Taken(ids: set<nat>, id: nat, d: nat, size: nat)
    requires id < size && d <= size
  {
    forall c :: 0 <= c < d ==> Along(id, c, size) in ids
  }

  /** The first id from one on, going round, that is not taken. */
  ghost predicate FirstFree(ids: set<nat>, from: nat, size: nat, id: nat)
    requires from < size
  {
    id !in ids && exists d :: 0 <= d < size && id == Along(from, d, size) && Taken(ids, from, d, size)
  }

  function Range(size: nat): (r: set<nat>)
    ensures forall i: nat :: i in r <==> i < size
  {
    if size == 0 then {} else Range(size - 1) + {size - 1}
  }

  lemma {:induction false} RangeSize(size: nat)
    ensures |Range(size)| == size
  {
    if size == 0 {
    } else {
      RangeSize(size - 1);
    }
  }

  /** Going once round meets every id, so that a full circle without a free one means a full table. */
  lemma FullCircle(taken: set<nat>, id: nat, size: nat)
    requires id < size && Taken(taken, id, size, size)
    ensures |taken| >= size
  {
    forall i | i in Range(size) ensures i in taken {
      var d := if i >= id then i - id else i + size - id;
      assert Along(id, d, size) == i;
    }
    RangeSize(size);
    SubsetSize(Range(size), taken);
  }

  lemma {:induction false} SubsetSize<T>(a: set<T>, b: set<T>)
    requires a <= b
    ensures |a| <= |b|
    decreases |a|
  {
    if a == {} {
    } else {
      var x :| x in a;
      SubsetSize(a - {x}, b - {x});
    }
  }

  /** `b` comes right after `a` among the ids of the table. */
  ghost predicate Follows(ids: set<nat>, a: nat, b: nat) {
    a in ids && b in ids && a < b && forall c :: c in ids ==> c <= a || b <= c
  }

  /** The entry before this one has expired, and has been visited. */
  ghost predicate Behind(fwd: map<nat, Entry>, b: nat, before: nat, todo: set<nat>) {
    exists a :: Follows(fwd.Keys, a, b) && a !in todo && fwd[a].lastUsed < before
  }

  ghost predicate LastExpired(fwd: map<nat, Entry>, before: nat) {
    exists id :: id in fwd && fwd[id].lastUsed < before && forall j :: j in fwd ==> j <= id
  }

  predicate Fresh(fwd: map<nat, Entry>, before: nat) {
    forall id :: id in fwd ==> fwd[id].lastUsed >= before
  }

  /** The entries that have not expired, or have yet to be visited. */
  function Live(fwd: map<nat, Entry>, todo: set<nat>, before: nat): map<nat, Entry> {
    map id | id in fwd && (id in todo || fwd[id].lastUsed >= before) :: fwd[id]
  }

  /** The addresses whose entry does not come after an expired one. */
  ghost function Kept(fwd: map<nat, Entry>, rev: map<Address, nat>, todo: set<nat>, before: nat): map<Address, nat> {
    map a | a in rev && !Behind(fwd, rev[a], before, todo) :: rev[a]
  }

  class ClientTable {
    const size: nat
    var nextId: nat
    var fwd: map<nat, Entry>
    var rev: map<Address, nat>

    ghost predicate Valid()
      reads this
    {
      nextId < size && fwd.Keys <= Range(size) && Mirrors(fwd, rev)
    }

    constructor (size: nat)
      requires size > 0
      ensures Valid() && this.size == size && nextId == 0 && fwd == map[] && rev == map[]
    {
      this.size, nextId, fwd, rev := size, 0, map[], map[];
    }

    /** A known client keeps its id; a new one gets the first id that is free, going round from the
        one after the last that was given.  The search ends because some id is free. */
    method Seek(key: Address, now: nat) returns (id: nat)
      requires Valid() && (key in rev || |fwd| < size)
      modifies this`nextId, this`fwd, this`rev
      ensures Valid() && id in fwd && fwd[id] == Entry(key, now)
      ensures key in old(rev) ==> id == old(rev)[key] && rev == old(rev) && nextId == old(nextId)
      ensures key !in old(rev) ==> id !in old(fwd) && rev == old(rev)[key := id] && nextId == Along(id, 1, size)
      ensures key !in old(rev) ==> FirstFree(old(fwd).Keys, old(nextId), size, id)
      ensures fwd == old(fwd)[id := Entry(key, now)]
    {
      if key in rev {
        id := rev[key];
        fwd := fwd[id := Entry(key, now)];
        return;
      }
      ghost var d := 0;
      while nextId in fwd
        invariant Valid() && fwd == old(fwd) && rev == old(rev) && d < size && nextId == Along(old(nextId), d, size)
        invariant Taken(fwd.Keys, old(nextId), d, size)
        decreases size - d
      {
        if d == size - 1 { FullCircle(fwd.Keys, old(nextId), size); }
        nextId := if nextId + 1 == size then 0 else nextId + 1;
        d := d + 1;
      }
      id := nextId;
      fwd := fwd[id := Entry(key, now)];
      rev := rev[key := id];
      nextId := if nextId + 1 == size then 0 else nextId + 1;
    }

    /** The purge as it is written: after an entry is erased, it is the address of the entry that
        follows which leaves the other map, and there may be none.  What it does is defined exactly
        when the last entry has not expired, and then the two maps still mirror each other exactly
        when nothing has. */
    method Purge(before: nat) returns (defined: bool)
      requires Valid()
      modifies this`fwd, this`rev
      ensures defined <==> !LastExpired(old(fwd), before)
      ensures defined ==> fwd == Live(old(fwd), {}, before) && rev == Kept(old(fwd), old(rev), {}, before)
      ensures defined ==> forall id :: id in fwd <==> id in old(fwd) && old(fwd)[id].lastUsed >= before
      ensures defined ==> forall id :: id in fwd ==> fwd[id] == old(fwd)[id]
      ensures defined ==> (Valid() <==> forall id :: id in old(fwd) ==> old(fwd)[id].lastUsed >= before)
    {
      hide Mirrors, Follows, Fresh, Behind, Live, Kept, LastExpired;
      var todo := fwd.Keys;
      Beginning(fwd, rev, before);
      while todo != {}
        invariant todo <= old(fwd).Keys && Ahead(old(fwd).Keys, todo)
        invariant fwd == Live(old(fwd), todo, before) && rev == Kept(old(fwd), old(rev), todo, before)
        invariant todo == {} ==> !LastExpired(old(fwd), before)
        decreases |todo|
      {
        var id := Least(todo);
        ghost var all := todo;
        Visit(old(fwd), old(rev), todo, id, before);
        todo := todo - {id};
        if fwd[id].lastUsed < before {
          fwd := fwd - {id};
          if todo == {} { return false; }
          var next := Least(todo);
          VisitExpired(old(fwd), old(rev), all, id, next, before);
          rev := rev - {fwd[next].addr};
        }
      }
      Ending(old(fwd), old(rev), before);
      LiveExactly(old(fwd), before);
      defined := true;
    }
  }

  lemma LiveExactly(fwd: map<nat, Entry>, before: nat)
    ensures var l := Live(fwd, {}, before);
            && (forall id :: id in l <==> id in fwd && fwd[id].lastUsed >= before)
            && (forall id :: id in l ==> l[id] == fwd[id])
            && (Fresh(fwd, before) <==> forall id :: id in fwd ==> fwd[id].lastUsed >= before)
  {
  }

  /** The ids still to be visited come after all the others. */
  predicate Ahead(ids: set<nat>, todo: set<nat>) {
    forall a, b :: a in ids && a !in todo && b in todo ==> a < b
  }

  lemma Beginning(fwd: map<nat, Entry>, rev: map<Address, nat>, before: nat)
    requires Mirrors(fwd, rev)
    ensures fwd == Live(fwd, fwd.Keys, before) && rev == Kept(fwd, rev, fwd.Keys, before)
    ensures fwd == map[] ==> !LastExpired(fwd, before)
  {
  }

  lemma Visit(fwd: map<nat, Entry>, rev: map<Address, nat>, todo: set<nat>, id: nat, before: nat)
    requires Mirrors(fwd, rev) && todo <= fwd.Keys && Ahead(fwd.Keys, todo) && IsLeast(id, todo)
    ensures Ahead(fwd.Keys, todo - {id}) && id in Live(fwd, todo, before) && Live(fwd, todo, before)[id] == fwd[id]
    ensures Live(fwd, todo - {id}, before) ==
            if fwd[id].lastUsed < before then Live(fwd, todo, before) - {id} else Live(fwd, todo, before)
    ensures fwd[id].lastUsed >= before ==> Kept(fwd, rev, todo - {id}, before) == Kept(fwd, rev, todo, before)
    ensures todo - {id} == {} ==> (LastExpired(fwd, before) <==> fwd[id].lastUsed < before)
  {
    if todo - {id} == {} {
      assert todo == {id};
      assert id in fwd;
      forall j | j in fwd ensures j <= id {
        if j in todo { assert j == id; }
      }
    }
  }

  lemma VisitExpired(fwd: map<nat, Entry>, rev: map<Address, nat>, todo: set<nat>, id: nat, next: nat, before: nat)
    requires Mirrors(fwd, rev) && todo <= fwd.Keys && Ahead(fwd.Keys, todo) && IsLeast(id, todo)
    requires fwd[id].lastUsed < before && IsLeast(next, todo - {id})
    ensures next in Live(fwd, todo - {id}, before) && Live(fwd, todo - {id}, before)[next] == fwd[next]
    ensures Kept(fwd, rev, todo - {id}, before) == Kept(fwd, rev, todo, before) - {fwd[next].addr}
  {
    forall c | c in fwd.Keys ensures c <= id || next <= c {
      if c in todo && c != id { assert c in todo - {id}; }
    }
    assert Follows(fwd.Keys, id, next);
    forall b ensures Behind(fwd, b, before, todo - {id}) <==> Behind(fwd, b, before, todo) || b == next {
      if Behind(fwd, b, before, todo - {id}) && !Behind(fwd, b, before, todo) {
        assert Follows(fwd.Keys, id, b);
      }
    }
  }

  /** A purge that has anything to do leaves some client with an id but no way to find it, so that
      it would get a second one, and some address with an id that is gone, which a search for it
      asserts cannot be. */
  lemma Ending(fwd: map<nat, Entry>, rev: map<Address, nat>, before: nat)
    requires Mirrors(fwd, rev) && !LastExpired(fwd, before)
    ensures Mirrors(Live(fwd, {}, before), Kept(fwd, rev, {}, before)) <==> Fresh(fwd, before)
    ensures Live(fwd, {}, before).Keys <= fwd.Keys
    ensures !Fresh(fwd, before) ==>
              exists id :: id in Live(fwd, {}, before) && fwd[id].addr !in Kept(fwd, rev, {}, before)
    ensures !Fresh(fwd, before) ==> exists a :: a in Kept(fwd, rev, {}, before) && rev[a] !in Live(fwd, {}, before)
  {
    if !Fresh(fwd, before) {
      var expired := set j | j in fwd && fwd[j].lastUsed < before;
      var some :| some in fwd && fwd[some].lastUsed < before;
      assert some in expired;
      var first := LeastOf(expired);
      assert forall p :: p in fwd && fwd[p].lastUsed < before ==> p in expired;
      assert !Behind(fwd, first, before, {});
      assert fwd[first].addr in Kept(fwd, rev, {}, before) && rev[fwd[first].addr] !in Live(fwd, {}, before);
      var id := Survivor(fwd, before);
      assert id in Live(fwd, {}, before) && rev[fwd[id].addr] == id;
    } else {
      assert Live(fwd, {}, before) == fwd && Kept(fwd, rev, {}, before) == rev;
    }
  }

  /** Some live entry follows an expired one, unless nothing has expired or the last one has. */
  lemma {:induction false} Survivor(fwd: map<nat, Entry>, before: nat) returns (id: nat)
    requires !Fresh(fwd, before) && !LastExpired(fwd, before)
    ensures id in fwd && fwd[id].lastUsed >= before && Behind(fwd, id, before, {})
  {
    var a :| a in fwd && fwd[a].lastUsed < before;
    id := LiveAfter(fwd, a, before);
  }

  lemma {:induction false} LiveAfter(fwd: map<nat, Entry>, a: nat, before: nat) returns (id: nat)
    requires a in fwd && fwd[a].lastUsed < before && !LastExpired(fwd, before)
    ensures id in fwd && fwd[id].lastUsed >= before && Behind(fwd, id, before, {})
    decreases |fwd.Keys - Range(a)|
  {
    var later := set j | j in fwd.Keys && j > a;
    var some :| some in fwd && some > a;
    assert some in later;
    id := LeastOf(later);
    forall c | c in fwd.Keys ensures c <= a || id <= c {
      if c > a { assert c in later; }
    }
    assert Follows(fwd.Keys, a, id);
    if fwd[id].lastUsed < before {
      assert a in fwd.Keys - Range(a) && a !in fwd.Keys - Range(id);
      StrictSubsetSize(fwd.Keys - Range(id), fwd.Keys - Range(a), a);
      id := LiveAfter(fwd, id, before);
    }
  }

  lemma StrictSubsetSize(a: set<nat>, b: set<nat>, x: nat)
    requires a <= b && x in b && x !in a
    ensures |a| < |b|
  {
    SubsetSize(a, b - {x});
  }

  /** Two clients, of which the first has gone quiet: the purge keeps the second's id, but forgets
      its address, and keeps the first's address with an id that is gone. */
  lemma PurgeConfuses()
    ensures var fwd, rev := map[0 := Entry(1, 0), 1 := Entry(2, 9)], map[1 := 0, 2 := 1];
            && Mirrors(fwd, rev) && !LastExpired(fwd, 5)
            && Live(fwd, {}, 5) == map[1 := Entry(2, 9)] && Kept(fwd, rev, {}, 5) == map[1 := 0]
  {
    var fwd: map<nat, Entry> := map[0 := Entry(1, 0), 1 := Entry(2, 9)];
    var rev: map<Address, nat> := map[1 := 0, 2 := 1];
    assert Follows(fwd.Keys, 0, 1);
    assert Behind(fwd, 1, 5, {});
    assert !Behind(fwd, 0, 5, {});
  }
}
