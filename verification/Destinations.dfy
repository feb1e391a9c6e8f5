// The bank of destinations (destbank.cc): names, and groups of names, from which a hash selects one.
module Destinations {
  import opened Basics

  datatype Group = Group(name: string, members: seq<string>)

  /** Which of the configured destinations a name stands for: the last of that name. */
  function Index(names: seq<string>): map<string, nat> {
    if names == [] then map[]
    else
      var n := |names| - 1;
      Index(names[..n])[names[n] := n]
  }

  lemma {:induction false} IndexEffect(names: seq<string>, name: string)
    ensures name in Index(names) <==> name in names
    ensures name in names ==> var i := Index(names)[name]; i < |names| && names[i] == name && name !in names[i + 1..]
  {
    if names == [] {
    } else {
      var n := |names| - 1;
      IndexEffect(names[..n], name);
      assert names == names[..n] + [names[n]];
      if name in names && names[n] != name {
        var i := Index(names[..n])[name];
        assert names[i + 1..] == names[..n][i + 1..] + [names[n]];
      }
    }
  }

  lemma IndexKeys(names: seq<string>)
    ensures forall name :: name in Index(names) <==> name in names
  {
    forall name ensures name in Index(names) <==> name in names {
      IndexEffect(names, name);
    }
  }

  /** The destinations behind some names. */
  function StandFor(singles: map<string, nat>, names: seq<string>): set<nat> {
    set m | m in names && m in singles :: singles[m]
  }

  /** The destinations of a name: its own, and those of every group called by it. */
  function Joined(singles: map<string, nat>, groups: seq<Group>, name: string): set<nat> {
    if groups == [] then
      if name in singles then {singles[name]} else {}
    else
      var n := |groups| - 1;
      Joined(singles, groups[..n], name) + if groups[n].name == name then StandFor(singles, groups[n].members) else {}
  }

  /** What a name and the groups called by it contribute, whatever the order of the groups. */
  lemma {:induction false} JoinedEffect(singles: map<string, nat>, groups: seq<Group>, name: string, d: nat)
    ensures d in Joined(singles, groups, name) <==>
            (name in singles && singles[name] == d) ||
            exists g, m :: 0 <= g < |groups| && groups[g].name == name && m in groups[g].members
                           && m in singles && singles[m] == d
  {
    if groups == [] {
    } else {
      var n := |groups| - 1;
      JoinedEffect(singles, groups[..n], name, d);
      assert forall g :: 0 <= g < n ==> groups[..n][g] == groups[g];
      if m: string :| groups[n].name == name && m in groups[n].members && m in singles && singles[m] == d {
        assert d in StandFor(singles, groups[n].members);
      }
    }
  }

  /** A group names a destination that is not configured. */
  predicate Stray(singles: map<string, nat>, groups: seq<Group>) {
    exists g, m :: 0 <= g < |groups| && m in groups[g].members && m !in singles
  }

  predicate Distinct(s: seq<nat>) {
    forall i, j :: 0 <= i < j < |s| ==> s[i] != s[j]
  }

  /** No bucket is empty, so that a hash always selects something, and none holds anything twice. */
  ghost predicate Selectable(tab: map<string, seq<nat>>) {
    forall name :: name in tab ==> tab[name] != [] && Distinct(tab[name])
  }

  function Seek(tab: map<string, seq<nat>>, name: string, hash: nat): (d: Option<nat>)
    requires Selectable(tab)
  {
    if name !in tab then None else Some(tab[name][hash % |tab[name]|])
  }

  /** A name selects one of its own destinations, always the same for the same hash, and each of
      them for some hash. */
  lemma SeekReaches(tab: map<string, seq<nat>>, name: string, d: nat)
    requires Selectable(tab) && name in tab
    ensures d in tab[name] <==> exists hash: nat :: hash < |tab[name]| && Seek(tab, name, hash) == Some(d)
  {
    if d in tab[name] {
      var i :| 0 <= i < |tab[name]| && tab[name][i] == d;
      assert i % |tab[name]| == i;
      assert Seek(tab, name, i) == Some(d);
    }
  }

  /** The hash counts from the start of the list, and goes round. */
  lemma SeekExactly(tab: map<string, seq<nat>>, name: string, h: nat)
    requires Selectable(tab)
    ensures name !in tab ==> Seek(tab, name, h) == None
    ensures name in tab && h < |tab[name]| ==> Seek(tab, name, h) == Some(tab[name][h])
    ensures name in tab ==> Seek(tab, name, h + |tab[name]|) == Seek(tab, name, h)
  {
    if name in tab { GoesRound(h, |tab[name]|); }
  }

  lemma GoesRound(h: nat, n: nat)
    requires n > 0
    ensures (h + n) % n == h % n && (h < n ==> h % n == h)
  {
    RemainderIs(h + n, n, h / n + 1, h % n);
    if h < n { RemainderIs(h, n, 0, h); }
  }

  /** Multiples of `n` are at least `n` apart. */
  lemma Between(a: nat, b: nat, n: nat, r: nat, s: nat)
    requires r < n && s < n && a * n + r == b * n + s
    ensures r == s
  {
    assert (a - b) * n == s - r;
    if a != b { Apart(a - b, n); }
  }

  lemma Apart(d: int, n: nat)
    requires d != 0
    ensures d * n + n <= 0 || n <= d * n
  {
    if d > 0 { assert (d - 1) * n >= 0; } else { assert (-d - 1) * n >= 0; }
  }

  lemma RemainderIs(x: nat, n: nat, q: nat, r: nat)
    requires r < n && x == q * n + r
    ensures x % n == r
  {
    var q', r' := x / n, x % n;
    assert x == q' * n + r' && r' < n;
    Between(q', q, n, r', r);
  }

  class DestinationBank {
    var tab: map<string, seq<nat>>

    constructor ()
      ensures tab == map[]
    {
      tab := map[];
    }

    /** Loads names and groups; names that are there already keep their destinations. */
    method Load(singletons: seq<string>, groups: seq<Group>) returns (thrown: bool)
      requires Selectable(tab)
      modifies this
      ensures thrown <==> exists g, m :: 0 <= g < |groups| && m in groups[g].members && m !in singletons
      ensures thrown ==> tab == old(tab)
      ensures !thrown ==> Selectable(tab)
      ensures !thrown ==> forall name :: Loaded(old(tab), tab, Joined(Index(singletons), groups, name), name)
    {
      hide StandFor, Loaded, Selectable;
      var singtab: map<string, nat> := map[];
      for i := 0 to |singletons|
        invariant singtab == Index(singletons[..i]) && tab == old(tab)
      {
        assert singletons[..i + 1][..i] == singletons[..i];
        singtab := singtab[singletons[i] := i];
      }
      assert singletons[..|singletons|] == singletons;
      var alttab: map<string, set<nat>> := map k | k in singtab :: {singtab[k]};
      for g := 0 to |groups|
        invariant !Stray(singtab, groups[..g]) && tab == old(tab)
        invariant forall name :: Alternatives(alttab, name) == Joined(singtab, groups[..g], name)
        invariant forall name :: name in alttab ==> alttab[name] != {}
      {
        var added := AddGroup(singtab, alttab, groups[g]);
        if added == None {
          ghost var m :| m in groups[g].members && m !in singtab;
          IndexKeys(singletons);
          return true;
        }
        alttab := added.value;
        assert groups[..g + 1][..g] == groups[..g];
        assert groups[..g + 1][g] == groups[g];
      }
      assert groups[..|groups|] == groups;
      Store(alttab);
      forall name ensures Loaded(old(tab), tab, Joined(Index(singletons), groups, name), name) {
        assert Loaded(old(tab), tab, Alternatives(alttab, name), name);
      }
      IndexKeys(singletons);
      thrown := false;
    }

    /** Lists the destinations of every name that is new. */
    method Store(alttab: map<string, set<nat>>)
      requires Selectable(tab) && forall name :: name in alttab ==> alttab[name] != {}
      modifies this
      ensures Selectable(tab) && forall name :: Loaded(old(tab), tab, Alternatives(alttab, name), name)
    {
      hide Distinct;
      var todo := alttab.Keys;
      while todo != {}
        invariant todo <= alttab.Keys && Selectable(tab)
        invariant forall name :: name !in todo ==> Loaded(old(tab), tab, Alternatives(alttab, name), name)
        invariant forall name :: name in todo ==> (name in tab <==> name in old(tab))
        invariant forall name :: name in todo && name in tab ==> tab[name] == old(tab)[name]
        decreases |todo|
      {
        var key :| key in todo;
        var list := Listed(alttab[key]);
        if key !in tab { tab := tab[key := list]; }
        todo := todo - {key};
      }
    }
  }

  /** Adds the members of one group, unless one of them is unknown. */
  method AddGroup(singtab: map<string, nat>, alttab: map<string, set<nat>>, group: Group)
    returns (r: Option<map<string, set<nat>>>)
    requires forall name :: name in alttab ==> alttab[name] != {}
    ensures r == None <==> exists m :: m in group.members && m !in singtab
    ensures r.Some? ==>
      && (forall name :: name in r.value ==> r.value[name] != {})
      && (forall name :: Alternatives(r.value, name) ==
                         Alternatives(alttab, name)
                         + if name == group.name then StandFor(singtab, group.members) else {})
  {
    var members, tab := group.members, alttab;
    for m := 0 to |members|
      invariant forall k :: 0 <= k < m ==> members[k] in singtab
      invariant Alternatives(tab, group.name) == Alternatives(alttab, group.name) + StandFor(singtab, members[..m])
      invariant forall name :: name != group.name ==> Alternatives(tab, name) == Alternatives(alttab, name)
      invariant forall name :: name in tab ==> tab[name] != {}
    {
      if members[m] !in singtab { return None; }
      StandForNext(singtab, members, m);
      tab := tab[group.name := Alternatives(tab, group.name) + {singtab[members[m]]}];
    }
    assert members[..|members|] == members;
    r := Some(tab);
  }

  lemma StandForNext(singles: map<string, nat>, names: seq<string>, m: nat)
    requires m < |names| && names[m] in singles
    ensures StandFor(singles, names[..m + 1]) == StandFor(singles, names[..m]) + {singles[names[m]]}
  {
    assert names[..m + 1] == names[..m] + [names[m]];
  }

  function Alternatives(alttab: map<string, set<nat>>, name: string): set<nat> {
    if name in alttab then alttab[name] else {}
  }

  /** After loading, a new name lists exactly its destinations, if it has any. */
  ghost predicate Loaded(was: map<string, seq<nat>>, tab: map<string, seq<nat>>, members: set<nat>, name: string) {
    if name in was then name in tab && tab[name] == was[name]
    else (name in tab <==> members != {}) && (name in tab ==> forall d :: d in tab[name] <==> d in members)
  }

  method Listed(members: set<nat>) returns (list: seq<nat>)
    ensures Distinct(list) && forall d :: d in list <==> d in members
    ensures list == [] <==> members == {}
  {
    list := [];
    var todo := members;
    while todo != {}
      invariant todo <= members && Distinct(list) && forall d :: d in list <==> d in members - todo
      decreases |todo|
    {
      var d :| d in todo;
      assert d !in list;
      list := list + [d];
      todo := todo - {d};
    }
    if members != {} {
      ghost var d :| d in members;
      assert d in list;
    }
    if list != [] {
      assert list[0] in list;
    }
  }
}
