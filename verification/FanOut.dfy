// Fan-out (emitters.cc, and the client state of tcp_egress.cc): every destination that the labels of
// a client resolve to gets an emitter that can talk to it.
module FanOut {
  import opened Basics
  import opened Destinations

  /** An address family with a protocol. */
  datatype Kind = Kind(family: int, protocol: int)

  /** What the system offers for sending: the entries of an address list, and those of them for which
      a socket can be made and bound. */
  datatype Offer = Offer(info: seq<Kind>, works: set<nat>)

  /** The kinds of address that each destination resolved to. */
  type Options = map<nat, set<Kind>>

  predicate Speaks(options: Options, d: nat, k: Kind) {
    d in options && k in options[d]
  }

  function Matching(required: set<nat>, options: Options, k: Kind): (r: set<nat>)
    ensures forall d :: d in r <==> d in required && d in options && k in options[d]
  {
    set d | d in required && Speaks(options, d, k)
  }

  predicate Usable(offer: Offer, i: nat) {
    i < |offer.info| && i in offer.works
  }

  /** Some entry that works can talk to the destination. */
  ghost predicate Served(options: Options, d: nat, offer: Offer) {
    exists i: nat :: Usable(offer, i) && Speaks(options, d, offer.info[i])
  }

  /** Some round served the destination. */
  ghost predicate ServedWithin(options: Options, d: nat, offers: nat -> Offer, rounds: nat) {
    exists k :: 0 <= k < rounds && Served(options, d, offers(k))
  }

  /** No entry that works can talk to more of the destinations. */
  ghost predicate IsBest(i: nat, required: set<nat>, options: Options, offer: Offer) {
    && Usable(offer, i) && Matching(required, options, offer.info[i]) != {}
    && forall j: nat :: Usable(offer, j) ==>
         |Matching(required, options, offer.info[j])| <= |Matching(required, options, offer.info[i])|
  }

  class Emitter {
    const kind: Kind

    constructor (kind: Kind)
      ensures this.kind == kind
    {
      this.kind := kind;
    }
  }

  // ---------- choosing an entry ----------

  predicate Descending(order: seq<nat>, counts: seq<nat>) {
    && (forall a :: 0 <= a < |order| ==> order[a] < |counts|)
    && (forall a, b :: 0 <= a < b < |order| ==> counts[order[a]] >= counts[order[b]])
  }

  method CountMatching(required: set<nat>, options: Options, k: Kind) returns (n: nat)
    ensures n == |Matching(required, options, k)|
  {
    n := 0;
    var todo := required;
    while todo != {}
      invariant todo <= required && n == |Matching(required - todo, options, k)|
      decreases |todo|
    {
      var d :| d in todo;
      assert Matching(required - (todo - {d}), options, k) ==
             Matching(required - todo, options, k) + if Speaks(options, d, k) then {d} else {};
      if Speaks(options, d, k) { n := n + 1; }
      todo := todo - {d};
    }
    assert required - todo == required;
  }

  /** Puts an entry before the first that counts less. */
  function Ranked(order: seq<nat>, counts: seq<nat>, i: nat): (r: seq<nat>)
    requires Descending(order, counts) && i < |counts|
    ensures Descending(r, counts) && forall j :: j in r <==> j == i || j in order
    ensures r != []
    ensures counts[r[0]] == if order == [] || counts[i] > counts[order[0]] then counts[i] else counts[order[0]]
  {
    if order == [] || counts[i] > counts[order[0]] then [i] + order
    else
      assert order[0] in order && order == [order[0]] + order[1..];
      var rest := Ranked(order[1..], counts, i);
      assert forall a :: 0 <= a < |rest| ==> rest[a] in rest;
      [order[0]] + rest
  }

  /** Counts for each entry how many of the destinations it can talk to, and tries the entries from
      the highest count on. */
  method Choose(required: set<nat>, options: Options, offer: Offer) returns (chosen: Option<nat>)
    ensures chosen == None <==> forall d :: d in required ==> !Served(options, d, offer)
    ensures chosen == None ==> forall d, i: nat ::
              d in required && d in options && i < |offer.info| && i in offer.works ==> offer.info[i] !in options[d]
    ensures chosen.Some? ==> chosen.value < |offer.info| && chosen.value in offer.works
    ensures chosen.Some? ==> IsBest(chosen.value, required, options, offer)
  {
    var counts: seq<nat> := [];
    for i := 0 to |offer.info|
      invariant |counts| == i
      invariant forall j :: 0 <= j < i ==> counts[j] == |Matching(required, options, offer.info[j])|
    {
      var n := CountMatching(required, options, offer.info[i]);
      counts := counts + [n];
    }
    var order: seq<nat> := [];
    for i := 0 to |offer.info|
      invariant Descending(order, counts) && forall j: nat :: j in order <==> j < i && counts[j] != 0
    {
      if counts[i] != 0 { order := Ranked(order, counts, i); }
    }
    for k := 0 to |order|
      invariant forall a :: 0 <= a < k ==> order[a] !in offer.works
    {
      assert order[k] in order;
      if order[k] in offer.works {
        chosen := Some(order[k]);
        forall j: nat | Usable(offer, j) ensures counts[j] <= counts[order[k]] {
          if j in order {
            var a :| 0 <= a < |order| && order[a] == j;
          }
        }
        ghost var d :| d in Matching(required, options, offer.info[order[k]]);
        assert Served(options, d, offer);
        return;
      }
    }
    chosen := None;
    forall d | d in required ensures !Served(options, d, offer) {
      forall i: nat | Usable(offer, i) ensures !Speaks(options, d, offer.info[i]) {
        assert i !in order;
        assert Matching(required, options, offer.info[i]) == {};
        assert d !in Matching(required, options, offer.info[i]);
      }
    }
  }

  // ---------- emitters ----------

  class EmitterMaker {
    var required: set<nat>
    var matched: set<nat>
    var chosen: Option<Kind>

    /** Sets a socket up for the best entry, if any entry is of use. */
    constructor (required: set<nat>, options: Options, offer: Offer)
      ensures this.required == required
      ensures chosen == None <==> forall d :: d in required ==> !Served(options, d, offer)
      ensures chosen == None ==> matched == {}
      ensures chosen.Some? ==> matched == Matching(required, options, chosen.value) != {}
      ensures chosen.Some? ==> exists i: nat :: IsBest(i, required, options, offer) && offer.info[i] == chosen.value
    {
      var best := Choose(required, options, offer);
      this.required := required;
      chosen := if best.Some? then Some(offer.info[best.value]) else None;
      matched := if best.Some? then Matching(required, options, offer.info[best.value]) else {};
    }

    /** Hands the socket over to an emitter, which takes the matching destinations. */
    method Make(emitters: map<nat, Emitter>) returns (r: map<nat, Emitter>, ghost e: Emitter?)
      modifies this
      ensures required == if old(chosen) == None then old(required) else old(required) - old(matched)
      ensures old(chosen) == None ==> r == emitters
      ensures old(chosen).Some? ==>
              e != null && fresh(e) && e.kind == old(chosen).value && Shared(r, emitters, old(matched), e)
    {
      hide Shared;
      r, e := emitters, null;
      if chosen == None { return; }
      var made := new Emitter(chosen.value);
      e := made;
      chosen := None;
      var todo := matched;
      SharedNone(r, made);
      assert matched - todo == {};
      while todo != {}
        invariant todo <= matched && matched == old(matched) && required == old(required) - (matched - todo)
        invariant Shared(r, emitters, matched - todo, made)
        decreases |todo|
      {
        var d :| d in todo;
        required := required - {d};
        SharedNext(r, emitters, matched - todo, made, d);
        assert matched - todo + {d} == matched - (todo - {d});
        r := r[d := made];
        todo := todo - {d};
      }
      assert matched - todo == old(matched);
    }
  }

  /** Some destinations have got the same emitter, and nothing else has changed. */
  ghost predicate Shared(r: map<nat, Emitter>, was: map<nat, Emitter>, matched: set<nat>, e: Emitter) {
    && r.Keys == was.Keys + matched
    && forall d :: d in r ==> r[d] == if d in matched then e else was[d]
  }

  lemma SharedNone(r: map<nat, Emitter>, e: Emitter)
    ensures Shared(r, r, {}, e)
  {
  }

  lemma SharedNext(r: map<nat, Emitter>, was: map<nat, Emitter>, matched: set<nat>, e: Emitter, d: nat)
    requires Shared(r, was, matched, e)
    ensures Shared(r[d := e], was, matched + {d}, e)
  {
  }

  // ---------- client states ----------

  /** The destinations that some names select. */
  function Selected(tab: map<string, seq<nat>>, hash: nat, names: set<string>): set<nat>
    requires Selectable(tab)
  {
    set n | n in names && Seek(tab, n, hash).Some? :: Seek(tab, n, hash).value
  }

  /** The destinations that the names of some labels select. */
  function RequiredBy(tab: map<string, seq<nat>>, hash: nat, channels: map<nat, set<string>>, tags: set<nat>): set<nat>
    requires Selectable(tab)
  {
    set t, d | t in tags && t in channels && d in Selected(tab, hash, channels[t]) :: d
  }

  function Required(tab: map<string, seq<nat>>, hash: nat, channels: map<nat, set<string>>): set<nat>
    requires Selectable(tab)
  {
    RequiredBy(tab, hash, channels, channels.Keys)
  }

  /** One emitter for each destination, which can talk to it. */
  ghost predicate Fitted(emitters: map<nat, Emitter>, dests: set<nat>, options: Options) {
    emitters.Keys == dests && forall d :: d in emitters ==> Speaks(options, d, emitters[d].kind)
  }

  /** Whoever a round serves is one of those that are left, and speaks the kind that was chosen. */
  lemma MatchingServed(required: set<nat>, options: Options, offer: Offer, matched: set<nat>, chosen: Option<Kind>)
    requires chosen == None ==> matched == {}
    requires chosen.Some? ==> matched == Matching(required, options, chosen.value)
    requires chosen.Some? ==> exists i: nat :: IsBest(i, required, options, offer) && offer.info[i] == chosen.value
    ensures matched <= required
    ensures forall d :: d in matched ==> Speaks(options, d, chosen.value) && Served(options, d, offer)
  {
    if chosen.Some? {
      var i: nat :| IsBest(i, required, options, offer) && offer.info[i] == chosen.value;
      forall d | d in matched ensures Served(options, d, offer) {
        assert Usable(offer, i) && Speaks(options, d, offer.info[i]);
      }
    }
  }

  lemma FittedNone(options: Options)
    ensures Fitted(map[], {}, options)
  {
  }

  lemma FittedNext(was: map<nat, Emitter>, made: map<nat, Emitter>, dests: set<nat>, matched: set<nat>,
                   options: Options, e: Emitter)
    requires Fitted(was, dests, options) && Shared(made, was, matched, e)
    requires forall d :: d in matched ==> Speaks(options, d, e.kind)
    ensures Fitted(made, dests + matched, options)
    ensures forall d :: d in made ==> made[d] == e || (d in was && made[d] == was[d])
  {
  }

  datatype Sending = Sending(dest: nat, emitter: Emitter, payload: Bytes)

  /** Gives an emitter to each destination, round by round, until none is left or some round serves
      none of those that are left.  Each round serves at least one, so that this ends. */
  method Erode(dests: set<nat>, options: Options, offers: nat -> Offer)
    returns (emitters: Option<map<nat, Emitter>>, rounds: nat)
    ensures emitters.Some? ==>
      && Fitted(emitters.value, dests, options)
      && (forall d :: d in emitters.value ==> fresh(emitters.value[d]))
      && (forall d :: d in dests ==> ServedWithin(options, d, offers, rounds))
    ensures emitters == None ==> exists d :: d in dests && !Served(options, d, offers(rounds))
  {
    hide Shared, Fitted, Speaks, Served, Matching, IsBest;
    var required := dests;
    var made: map<nat, Emitter> := map[];
    rounds := 0;
    assert dests - required == {};
    FittedNone(options);
    while required != {}
      invariant required <= dests && Fitted(made, dests - required, options)
      invariant forall d :: d in made ==> fresh(made[d])
      invariant forall d :: d in dests - required ==> ServedWithin(options, d, offers, rounds)
      decreases |required|
    {
      var mkr := new EmitterMaker(required, options, offers(rounds));
      MatchingServed(required, options, offers(rounds), mkr.matched, mkr.chosen);
      if mkr.matched == {} {
        ghost var d :| d in required;
        return None, rounds;
      }
      ghost var was, matched := made, mkr.matched;
      ghost var e;
      made, e := mkr.Make(made);
      FittedNext(was, made, dests - required, matched, options, e);
      assert dests - required + matched == dests - (required - matched);
      required := mkr.required;
      rounds := rounds + 1;
    }
    assert dests - required == dests;
    emitters := Some(made);
  }

  /** What each of the names selects. */
  ghost predicate Resolves(found: map<string, nat>, tab: map<string, seq<nat>>, hash: nat)
    requires Selectable(tab)
  {
    forall n :: n in found ==> Seek(tab, n, hash) == Some(found[n])
  }

  /** Every name that selects something has been found. */
  ghost predicate Covers(found: map<string, nat>, tab: map<string, seq<nat>>, hash: nat, names: set<string>)
    requires Selectable(tab)
  {
    forall n :: n in names && Seek(tab, n, hash).Some? ==> n in found
  }

  /** Where a label goes. */
  function OutletOf(outlets: map<nat, map<nat, Emitter>>, tag: nat): map<nat, Emitter> {
    if tag in outlets then outlets[tag] else map[]
  }

  predicate Reached(sent: seq<Sending>, d: nat) {
    exists i :: 0 <= i < |sent| && sent[i].dest == d
  }

  /** A payload has gone to each destination of an outlet, once, through that destination's emitter. */
  ghost predicate Spread(sent: seq<Sending>, outlet: map<nat, Emitter>, payload: Bytes) {
    && (forall i :: 0 <= i < |sent| ==>
          sent[i].dest in outlet && sent[i] == Sending(sent[i].dest, outlet[sent[i].dest], payload))
    && (forall i, j :: 0 <= i < j < |sent| ==> sent[i].dest != sent[j].dest)
    && (forall d :: d in outlet ==> Reached(sent, d))
  }

  class ClientState {
    const outlets: map<nat, map<nat, Emitter>>

    constructor (outlets: map<nat, map<nat, Emitter>>)
      ensures this.outlets == outlets
    {
      this.outlets := outlets;
    }

    /** Resolves every name once, finds the emitters, and notes for each label where it goes.  Names
        that are unknown are passed over, and a label that has no other names goes nowhere. */
    static method Create(tab: map<string, seq<nat>>, hash: nat, channels: map<nat, set<string>>, options: Options,
                         offers: nat -> Offer)
      returns (state: Option<ClientState>, rounds: nat)
      requires Selectable(tab)
      ensures state.Some? ==> fresh(state.value)
      ensures state.Some? ==> forall l :: OutletExact(state.value.outlets, tab, hash, channels, options, l)
      ensures state.Some? ==> forall l, d :: l in state.value.outlets && d in state.value.outlets[l] ==>
                fresh(state.value.outlets[l][d])
      ensures state.Some? ==>
                forall d :: d in Required(tab, hash, channels) ==> ServedWithin(options, d, offers, rounds)
      ensures state == None ==> exists d :: d in Required(tab, hash, channels) && !Served(options, d, offers(rounds))
    {
      hide Fitted, Served, Speaks, Selectable, Selected, Required, OutletExact, Covers, Resolves;
      var dests, found := Resolve(tab, hash, channels);
      var emitters;
      emitters, rounds := Erode(dests, options, offers);
      if emitters == None { return None, rounds; }
      var outlets := Outlets(tab, hash, channels, options, found, emitters.value);
      forall t, d | t in outlets && d in outlets[t] ensures fresh(outlets[t][d]) {
        assert outlets[t][d] == emitters.value[d];
      }
      var made := new ClientState(outlets);
      state := Some(made);
    }

    /** A payload goes once to each destination of its label, through that destination's emitter. */
    method Deliver(tag: nat, payload: Bytes) returns (sent: seq<Sending>)
      ensures Spread(sent, OutletOf(outlets, tag), payload)
    {
      hide Reached;
      sent := [];
      if tag !in outlets { return; }
      var outlet := outlets[tag];
      var todo := outlet.Keys;
      while todo != {}
        invariant todo <= outlet.Keys
        invariant forall i :: 0 <= i < |sent| ==>
                  sent[i].dest in outlet && sent[i].dest !in todo &&
                  sent[i] == Sending(sent[i].dest, outlet[sent[i].dest], payload)
        invariant forall i, j :: 0 <= i < j < |sent| ==> sent[i].dest != sent[j].dest
        invariant forall d :: d in outlet.Keys - todo ==> Reached(sent, d)
        decreases |todo|
      {
        var d :| d in todo;
        ReachedMore(sent, Sending(d, outlet[d], payload));
        sent := sent + [Sending(d, outlet[d], payload)];
        todo := todo - {d};
      }
    }
  }

  lemma ReachedMore(sent: seq<Sending>, x: Sending)
    ensures forall d :: Reached(sent + [x], d) <==> d == x.dest || Reached(sent, d)
  {
    forall d ensures Reached(sent + [x], d) <==> d == x.dest || Reached(sent, d) {
      if d == x.dest {
        assert (sent + [x])[|sent|].dest == d;
      } else if Reached(sent, d) {
        var i :| 0 <= i < |sent| && sent[i].dest == d;
        assert (sent + [x])[i].dest == d;
      }
    }
  }

  /** Looks every name up. */
  method Resolve(tab: map<string, seq<nat>>, hash: nat, channels: map<nat, set<string>>)
    returns (dests: set<nat>, found: map<string, nat>)
    requires Selectable(tab)
    ensures dests == Required(tab, hash, channels) && Resolves(found, tab, hash)
    ensures forall t :: t in channels ==> Covers(found, tab, hash, channels[t])
  {
    hide Selectable, Seek, Selected, RequiredBy, Covers, Resolves;
    dests, found := {}, map[];
    var todo := channels.Keys;
    RequiredNone(tab, hash, channels, todo - todo);
    while todo != {}
      invariant todo <= channels.Keys && Resolves(found, tab, hash)
      invariant dests == RequiredBy(tab, hash, channels, channels.Keys - todo)
      invariant forall t :: t in channels.Keys - todo ==> Covers(found, tab, hash, channels[t])
      decreases |todo|
    {
      var tag :| tag in todo;
      ghost var was := found;
      var more;
      more, found := ResolveNames(tab, hash, channels[tag], found);
      dests := dests + more;
      CoversMore(was, found, tab, hash);
      RequiredNext(tab, hash, channels, channels.Keys - todo, tag);
      assert channels.Keys - todo + {tag} == channels.Keys - (todo - {tag});
      todo := todo - {tag};
    }
    assert channels.Keys - todo == channels.Keys;
  }

  /** Looks up the names of one label. */
  method ResolveNames(tab: map<string, seq<nat>>, hash: nat, names: set<string>, before: map<string, nat>)
    returns (dests: set<nat>, found: map<string, nat>)
    requires Selectable(tab) && Resolves(before, tab, hash)
    ensures dests == Selected(tab, hash, names) && Resolves(found, tab, hash) && Covers(found, tab, hash, names)
    ensures before.Keys <= found.Keys
  {
    hide Selectable, Seek, Selected;
    dests, found := {}, before;
    var todo := names;
    SelectedNone(tab, hash, todo - todo);
    while todo != {}
      invariant todo <= names && before.Keys <= found.Keys
      invariant dests == Selected(tab, hash, names - todo)
      invariant Resolves(found, tab, hash) && Covers(found, tab, hash, names - todo)
      decreases |todo|
    {
      var name :| name in todo;
      var dest := Seek(tab, name, hash);
      if dest.Some? {
        dests := dests + {dest.value};
        found := found[name := dest.value];
      }
      SelectedNext(tab, hash, names - todo, name);
      assert names - todo + {name} == names - (todo - {name});
      todo := todo - {name};
    }
    assert names - todo == names;
  }

  lemma RequiredNone(tab: map<string, seq<nat>>, hash: nat, channels: map<nat, set<string>>, tags: set<nat>)
    requires Selectable(tab) && tags == {}
    ensures RequiredBy(tab, hash, channels, tags) == {} && Resolves(map[], tab, hash)
  {
  }

  lemma RequiredNext(tab: map<string, seq<nat>>, hash: nat, channels: map<nat, set<string>>, tags: set<nat>, tag: nat)
    requires Selectable(tab) && tag in channels
    ensures RequiredBy(tab, hash, channels, tags + {tag}) ==
            RequiredBy(tab, hash, channels, tags) + Selected(tab, hash, channels[tag])
  {
  }

  lemma CoversMore(was: map<string, nat>, found: map<string, nat>, tab: map<string, seq<nat>>, hash: nat)
    requires Selectable(tab) && was.Keys <= found.Keys
    ensures forall names :: Covers(was, tab, hash, names) ==> Covers(found, tab, hash, names)
  {
  }

  lemma SelectedNone(tab: map<string, seq<nat>>, hash: nat, names: set<string>)
    requires Selectable(tab) && names == {}
    ensures Selected(tab, hash, names) == {}
  {
  }

  lemma SelectedNext(tab: map<string, seq<nat>>, hash: nat, names: set<string>, name: string)
    requires Selectable(tab)
    ensures Selected(tab, hash, names + {name}) ==
            Selected(tab, hash, names) + if Seek(tab, name, hash).Some? then {Seek(tab, name, hash).value} else {}
  {
  }

  /** The outlets of one label. */
  method Outlet(tab: map<string, seq<nat>>, hash: nat, names: set<string>, found: map<string, nat>,
                emitters: map<nat, Emitter>)
    returns (outlet: map<nat, Emitter>)
    requires Selectable(tab) && Resolves(found, tab, hash) && Covers(found, tab, hash, names)
    requires Selected(tab, hash, names) <= emitters.Keys
    ensures Drawn(outlet, emitters, Selected(tab, hash, names))
  {
    hide Selectable, Seek, Selected, Drawn;
    outlet := map[];
    var todo := names;
    SelectedNone(tab, hash, todo - todo);
    DrawnNone(emitters);
    while todo != {}
      invariant todo <= names && Drawn(outlet, emitters, Selected(tab, hash, names - todo))
      decreases |todo|
    {
      var name :| name in todo;
      ghost var before := Selected(tab, hash, names - todo);
      SelectedNext(tab, hash, names - todo, name);
      assert names - todo + {name} == names - (todo - {name});
      SelectedIn(tab, hash, names, name);
      todo := todo - {name};
      if name in found && found[name] in emitters {
        DrawnNext(outlet, emitters, before, found[name]);
        outlet := outlet[found[name] := emitters[found[name]]];
      }
    }
    assert names - todo == names;
  }

  /** The outlets of every label. */
  method Outlets(tab: map<string, seq<nat>>, hash: nat, channels: map<nat, set<string>>, options: Options,
                 found: map<string, nat>, emitters: map<nat, Emitter>) returns (outlets: map<nat, map<nat, Emitter>>)
    requires Selectable(tab) && Resolves(found, tab, hash) && Fitted(emitters, Required(tab, hash, channels), options)
    requires forall t :: t in channels ==> Covers(found, tab, hash, channels[t])
    ensures forall t :: OutletExact(outlets, tab, hash, channels, options, t)
    ensures AllDrawn(outlets, emitters)
  {
    hide Fitted, Speaks, Selectable, Selected, Required, OutletExact, Covers, Resolves, Drawn, AllDrawn;
    outlets := map[];
    NoneDrawn(emitters);
    OutletsNone(tab, hash, channels, options);
    FittedKeys(emitters, Required(tab, hash, channels), options);
    var todo := channels.Keys;
    while todo != {}
      invariant todo <= channels.Keys
      invariant forall t :: t in todo ==> t !in outlets
      invariant forall t :: t !in todo ==> OutletExact(outlets, tab, hash, channels, options, t)
      invariant AllDrawn(outlets, emitters)
      decreases |todo|
    {
      var tag :| tag in todo;
      SelectedRequired(tab, hash, channels, tag);
      var outlet := Outlet(tab, hash, channels[tag], found, emitters);
      ghost var was := outlets;
      if outlet != map[] { outlets := outlets[tag := outlet]; }
      AllDrawnNext(was, outlets, outlet, emitters, Selected(tab, hash, channels[tag]), tag);
      OutletNext(was, outlets, outlet, tab, hash, channels, options, tag, emitters);
      todo := todo - {tag};
    }
  }

  /** Some destinations, with their emitters. */
  ghost predicate Drawn(outlet: map<nat, Emitter>, emitters: map<nat, Emitter>, dests: set<nat>) {
    outlet.Keys == dests && forall d :: d in outlet ==> d in emitters && outlet[d] == emitters[d]
  }

  /** Every label's destinations, with their emitters. */
  ghost predicate AllDrawn(outlets: map<nat, map<nat, Emitter>>, emitters: map<nat, Emitter>) {
    forall t, d :: t in outlets && d in outlets[t] ==> d in emitters && outlets[t][d] == emitters[d]
  }

  lemma NoneDrawn(emitters: map<nat, Emitter>)
    ensures AllDrawn(map[], emitters)
  {
  }

  lemma AllDrawnNext(was: map<nat, map<nat, Emitter>>, now: map<nat, map<nat, Emitter>>, outlet: map<nat, Emitter>,
                     emitters: map<nat, Emitter>, dests: set<nat>, tag: nat)
    requires AllDrawn(was, emitters) && Drawn(outlet, emitters, dests) && (now == was || now == was[tag := outlet])
    ensures AllDrawn(now, emitters)
  {
  }

  lemma DrawnNone(emitters: map<nat, Emitter>)
    ensures Drawn(map[], emitters, {})
  {
  }

  lemma DrawnNext(outlet: map<nat, Emitter>, emitters: map<nat, Emitter>, dests: set<nat>, d: nat)
    requires Drawn(outlet, emitters, dests) && d in emitters
    ensures Drawn(outlet[d := emitters[d]], emitters, dests + {d})
  {
  }

  lemma SelectedIn(tab: map<string, seq<nat>>, hash: nat, names: set<string>, name: string)
    requires Selectable(tab) && name in names
    ensures Seek(tab, name, hash).Some? ==> Seek(tab, name, hash).value in Selected(tab, hash, names)
  {
  }

  /** A label goes exactly to the destinations that its names select, each through an emitter that
      can talk to it; a label without any goes nowhere. */
  ghost predicate OutletExact(outlets: map<nat, map<nat, Emitter>>, tab: map<string, seq<nat>>, hash: nat,
                              channels: map<nat, set<string>>, options: Options, tag: nat)
    requires Selectable(tab)
  {
    var wanted := if tag in channels then Selected(tab, hash, channels[tag]) else {};
    && (tag in outlets <==> wanted != {})
    && (tag in outlets ==> outlets[tag].Keys == wanted)
    && (tag in outlets ==> forall d :: d in outlets[tag] ==> Speaks(options, d, outlets[tag][d].kind))
  }

  lemma OutletsNone(tab: map<string, seq<nat>>, hash: nat, channels: map<nat, set<string>>, options: Options)
    requires Selectable(tab)
    ensures forall t :: t !in channels ==> OutletExact(map[], tab, hash, channels, options, t)
  {
  }

  lemma SelectedRequired(tab: map<string, seq<nat>>, hash: nat, channels: map<nat, set<string>>, tag: nat)
    requires Selectable(tab) && tag in channels
    ensures Selected(tab, hash, channels[tag]) <= Required(tab, hash, channels)
  {
  }

  lemma FittedKeys(emitters: map<nat, Emitter>, dests: set<nat>, options: Options)
    requires Fitted(emitters, dests, options)
    ensures emitters.Keys == dests
  {
  }

  lemma OutletNext(was: map<nat, map<nat, Emitter>>, outlets: map<nat, map<nat, Emitter>>, outlet: map<nat, Emitter>,
                   tab: map<string, seq<nat>>, hash: nat, channels: map<nat, set<string>>, options: Options, tag: nat,
                   emitters: map<nat, Emitter>)
    requires Selectable(tab) && tag in channels && tag !in was
    requires outlets == if outlet != map[] then was[tag := outlet] else was
    requires Drawn(outlet, emitters, Selected(tab, hash, channels[tag]))
    requires Fitted(emitters, Required(tab, hash, channels), options)
    ensures forall l :: l == tag || OutletExact(was, tab, hash, channels, options, l) ==>
              OutletExact(outlets, tab, hash, channels, options, l)
  {
  }
}
