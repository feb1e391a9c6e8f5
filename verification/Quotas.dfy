// The quota manager (quotas.cc): what each user of the disc holds, and which user is to be asked
// first to give some up.
module Quotas {
  import opened Basics

  datatype Data = Data(amount: nat, age: nat)

  /** The users of one age; users are known by their addresses. */
  datatype Bucket = Bucket(age: nat, members: set<nat>)

  /** What a user does when asked: it has nothing to discard, or it discards so much. */
  datatype Reply = Nothing | Freed(size: nat)

  // ---------- amounts ----------

  ghost function Sum(users: map<nat, Data>): nat
    decreases |users|
  {
    if users == map[] then 0
    else
      var u :| u in users;
      users[u].amount + Sum(users - {u})
  }

  /** The sum does not depend on the order. */
  lemma {:induction false} SumWithout(users: map<nat, Data>, u: nat)
    requires u in users
    ensures Sum(users) == users[u].amount + Sum(users - {u})
    decreases |users|
  {
    var v :| v in users && Sum(users) == users[v].amount + Sum(users - {v});
    if v != u {
      SumWithout(users - {v}, u);
      SumWithout(users - {u}, v);
      assert users - {v} - {u} == users - {u} - {v};
    }
  }

  lemma SumSet(users: map<nat, Data>, u: nat, d: Data)
    ensures Sum(users[u := d]) == d.amount + Sum(users - {u})
    ensures u in users ==> Sum(users) == users[u].amount + Sum(users - {u})
    ensures u !in users ==> Sum(users) == Sum(users - {u})
  {
    SumWithout(users[u := d], u);
    assert users[u := d] - {u} == users - {u};
    if u in users { SumWithout(users, u); } else { assert users - {u} == users; }
  }

  // ---------- ages ----------

  function Members(ages: seq<Bucket>, age: nat): set<nat> {
    if ages == [] then {} else if ages[0].age == age then ages[0].members else Members(ages[1..], age)
  }

  predicate OrderedAbove(ages: seq<Bucket>, low: nat) {
    ages == [] || (low < ages[0].age && ages[0].members != {} && OrderedAbove(ages[1..], ages[0].age))
  }

  /** Strictly ascending ages, none of them zero, and no empty bucket. */
  predicate Ordered(ages: seq<Bucket>) {
    OrderedAbove(ages, 0)
  }

  /** The buckets are exactly the inverse of the users' ages, leaving out those without one. */
  ghost predicate Indexed(users: map<nat, Data>, ages: seq<Bucket>) {
    && Ordered(ages)
    && forall u: nat, a: nat :: Inverts(users, ages, u, a)
  }

  predicate Inverts(users: map<nat, Data>, ages: seq<Bucket>, u: nat, a: nat) {
    u in Members(ages, a) <==> a != 0 && u in users && users[u].age == a
  }

  /** A user leaves its bucket, and an empty bucket goes. */
  function Removed(ages: seq<Bucket>, u: nat, age: nat): seq<Bucket> {
    if ages == [] then []
    else if ages[0].age == age then
      var left := ages[0].members - {u};
      if left == {} then ages[1..] else [Bucket(age, left)] + ages[1..]
    else [ages[0]] + Removed(ages[1..], u, age)
  }

  function Inserted(ages: seq<Bucket>, u: nat, age: nat): seq<Bucket> {
    if ages == [] || age < ages[0].age then [Bucket(age, {u})] + ages
    else if ages[0].age == age then [Bucket(age, ages[0].members + {u})] + ages[1..]
    else [ages[0]] + Inserted(ages[1..], u, age)
  }

  lemma {:induction false} RemovedEffect(ages: seq<Bucket>, u: nat, age: nat, low: nat)
    requires OrderedAbove(ages, low)
    ensures OrderedAbove(Removed(ages, u, age), low)
    ensures forall a :: Members(Removed(ages, u, age), a) == Members(ages, a) - (if a == age then {u} else {})
  {
    if ages == [] {
    } else {
      if ages[0].age == age {
        NoMembers(ages[1..], age, age);
      } else {
        RemovedEffect(ages[1..], u, age, ages[0].age);
        assert Removed(ages, u, age)[1..] == Removed(ages[1..], u, age);
      }
    }
  }

  lemma {:induction false} NoMembers(ages: seq<Bucket>, age: nat, low: nat)
    requires OrderedAbove(ages, low) && age <= low
    ensures Members(ages, age) == {}
  {
    if ages == [] {
    } else {
      NoMembers(ages[1..], age, ages[0].age);
    }
  }

  lemma {:induction false} InsertedEffect(ages: seq<Bucket>, u: nat, age: nat, low: nat)
    requires OrderedAbove(ages, low) && low < age
    ensures OrderedAbove(Inserted(ages, u, age), low)
    ensures forall a :: Members(Inserted(ages, u, age), a) == Members(ages, a) + (if a == age then {u} else {})
  {
    if ages == [] || age < ages[0].age {
      if ages != [] { NoMembers(ages, age, age); }
      assert Inserted(ages, u, age)[1..] == ages;
    } else if ages[0].age != age {
      InsertedEffect(ages[1..], u, age, ages[0].age);
      assert Inserted(ages, u, age)[1..] == Inserted(ages[1..], u, age);
    }
  }

  // ---------- asking ----------

  function Increased(users: map<nat, Data>, u: nat, sz: nat): map<nat, Data> {
    var d := if u in users then users[u] else Data(0, 0);
    users[u := d.(amount := d.amount + sz)]
  }

  function Decreased(users: map<nat, Data>, u: nat, sz: nat): map<nat, Data> {
    var d := if u in users then users[u] else Data(0, 0);
    users[u := d.(amount := if d.amount < sz then 0 else d.amount - sz)]
  }

  /** How much a user really gives up. */
  function Given(users: map<nat, Data>, u: nat, sz: nat): nat {
    if u in users then Min(users[u].amount, sz) else 0
  }

  lemma DecreasedSum(users: map<nat, Data>, u: nat, sz: nat)
    ensures Sum(Decreased(users, u, sz)) == Sum(users) - Given(users, u, sz)
  {
    var d := Decreased(users, u, sz)[u];
    SumSet(users, u, d);
    assert Decreased(users, u, sz) == users[u := d];
  }

  datatype Outcome = Outcome(users: map<nat, Data>, total: nat, asked: seq<nat>)

  /** While the total is over the limit, the first user of the next bucket, the one with the lowest
      address, is asked. */
  ghost function Asking(users: map<nat, Data>, total: nat, max: nat, ages: seq<Bucket>, low: nat, replies: seq<Reply>)
    : Outcome
    requires OrderedAbove(ages, low)
    decreases |ages|
  {
    if total <= max || ages == [] then Outcome(users, total, [])
    else
      var u := LeastOf(ages[0].members);
      var sz := if replies != [] && replies[0].Freed? then replies[0].size else 0;
      var users' := if replies != [] && replies[0].Freed? then Decreased(users, u, sz) else users;
      var rest := Asking(users', Less(total, Given(users, u, sz)), max, ages[1..], ages[0].age,
                         if replies == [] then [] else replies[1..]);
      rest.(asked := [u] + rest.asked)
  }

  class Quota {
    var total: nat
    var max: nat
    var users: map<nat, Data>
    var ages: seq<Bucket>

    /** The total is the sum of the users' amounts, and the buckets invert their ages. */
    ghost predicate Valid()
      reads this
    {
      total == Sum(users) && Indexed(users, ages)
    }

    constructor ()
      ensures Valid() && total == 0 && max == 0 && users == map[] && ages == []
    {
      total, max, users, ages := 0, 0, map[], [];
    }

    /** Asks one user of each bucket, oldest first, until the total is within the limit. */
    method Check(replies: seq<Reply>) returns (asked: seq<nat>)
      requires Valid()
      modifies this`total, this`users
      ensures Valid() && Outcome(users, total, asked) == Asking(old(users), old(total), max, ages, 0, replies)
    {
      hide Asking, Indexed, Sum, OrderedAbove;
      asked := [];
      var iter := 0;
      ghost var low := 0;
      Indices();
      assert ages[0..] == ages && replies[0..] == replies;
      ghost var all := Asking(users, total, max, ages, 0, replies);
      assert all.asked == [] + all.asked;
      while total > max && iter < |ages|
        invariant Valid() && Ordered(ages) && iter <= |ages| && ages == old(ages) && OrderedAbove(ages[iter..], low)
        invariant var rest := Asking(users, total, max, ages[iter..], low, replies[Min(iter, |replies|)..]);
                  all == rest.(asked := asked + rest.asked)
        decreases |ages| - iter
      {
        MembersAt(ages, iter, 0);
        var up := Least(ages[iter].members);
        LeastUnique(up, LeastOf(ages[iter].members), ages[iter].members);
        NextAsked(users, total, max, ages, iter, low, replies, up);
        low := ages[iter].age;
        if iter < |replies| && replies[iter].Freed? {
          Decrease(up, replies[iter].size);
        }
        Regroup(asked, up, Asking(users, total, max, ages[iter + 1..], low, replies[Min(iter + 1, |replies|)..]).asked);
        asked := asked + [up];
        iter := iter + 1;
      }
      AskingStops(users, total, max, ages[iter..], low, replies[Min(iter, |replies|)..]);
      assert asked + [] == asked;
    }

    lemma Indices()
      requires Valid()
      ensures Ordered(ages) && OrderedAbove(ages, 0)
    {
    }

    method SetLimit(sz: nat, replies: seq<Reply>) returns (asked: seq<nat>)
      requires Valid()
      modifies this`max, this`total, this`users
      ensures Valid() && max == sz
      ensures Outcome(users, total, asked) == Asking(old(users), old(total), sz, ages, 0, replies)
    {
      max := sz;
      asked := Check(replies);
    }

    method Increase(u: nat, sz: nat, replies: seq<Reply>) returns (asked: seq<nat>)
      requires Valid()
      modifies this`total, this`users
      ensures Valid()
      ensures Outcome(users, total, asked)
              == Asking(Increased(old(users), u, sz), old(total) + sz, max, ages, 0, replies)
    {
      hide Indexed, Sum, Asking;
      var d := if u in users then users[u] else Data(0, 0);
      SumSet(users, u, d.(amount := d.amount + sz));
      AmountIndexed(users, ages, u, d.(amount := d.amount + sz));
      users := users[u := d.(amount := d.amount + sz)];
      total := total + sz;
      asked := Check(replies);
    }

    /** The total falls by exactly what the user had to give, so that it never needs clamping. */
    method Decrease(u: nat, sz: nat)
      requires Valid()
      modifies this`total, this`users
      ensures Valid() && users == Decreased(old(users), u, sz)
      ensures total == old(total) - Given(old(users), u, sz)
      ensures var was := if u in old(users) then old(users)[u].amount else 0;
              u in users && users[u].amount == (if was < sz then 0 else was - sz)
              && old(total) - total == (if was < sz then was else sz)
    {
      DecreasedSum(users, u, sz);
      var d := if u in users then users[u] else Data(0, 0);
      var am: nat;
      if d.amount < sz {
        am := d.amount;
        d := d.(amount := 0);
      } else {
        am := sz;
        d := d.(amount := d.amount - sz);
      }
      AmountIndexed(users, ages, u, d);
      users := users[u := d];
      total := Less(total, am);
    }

    method Forget(u: nat)
      requires Valid()
      modifies this`total, this`users, this`ages
      ensures Valid() && users == old(users) - {u}
      ensures total == old(total) - if u in old(users) then old(users)[u].amount else 0
    {
      if u !in users {
        assert users - {u} == users;
        return;
      }
      SumWithout(users, u);
      EraseFromSequence(u, users[u].age);
      total := Less(total, users[u].amount);
      ForgottenIndexed(users, old(ages), ages, u);
      users := users - {u};
    }

    method EraseFromSequence(u: nat, when: nat)
      requires Ordered(ages)
      modifies this`ages
      ensures Ordered(ages)
      ensures forall a :: Members(ages, a) == Members(old(ages), a) - (if a == when && when != 0 then {u} else {})
    {
      if when == 0 { return; }
      RemovedEffect(ages, u, when, 0);
      ages := Removed(ages, u, when);
    }

    /** Records the age of a user's oldest file; zero means none. */
    method Oldest(u: nat, when: nat)
      requires Valid()
      modifies this`users, this`ages
      ensures Valid() && total == old(total)
      ensures users == old(users)[u := if u in old(users) then old(users)[u].(age := when) else Data(0, when)]
    {
      var d := if u in users then users[u] else Data(0, 0);
      SumSet(users, u, d);
      SumSet(users, u, d.(age := when));
      if d.age != when {
        EraseFromSequence(u, d.age);
        if when != 0 {
          InsertedEffect(ages, u, when, 0);
          ages := Inserted(ages, u, when);
        }
      }
      MovedIndexed(users, old(ages), ages, u, d, when);
      users := users[u := d.(age := when)];
    }
  }

  /** The members of age `a` when a user goes from one age to another. */
  function Moved(members: set<nat>, u: nat, a: nat, was: nat, when: nat): set<nat> {
    if was == when || a == 0 then members
    else members - (if a == was then {u} else {}) + (if a == when then {u} else {})
  }

  /** Amounts make no difference to the buckets. */
  lemma AmountIndexed(users: map<nat, Data>, ages: seq<Bucket>, u: nat, d: Data)
    requires Indexed(users, ages) && d.age == if u in users then users[u].age else 0
    ensures Indexed(users[u := d], ages)
  {
    hide Ordered;
    var now := users[u := d];
    forall v: nat, a: nat ensures Inverts(now, ages, v, a) {
      assert Inverts(users, ages, v, a);
    }
  }

  lemma MovedIndexed(users: map<nat, Data>, ages: seq<Bucket>, ages': seq<Bucket>, u: nat, d: Data, when: nat)
    requires Indexed(users, ages) && Ordered(ages')
    requires d == if u in users then users[u] else Data(0, 0)
    requires forall a :: Members(ages', a) == Moved(Members(ages, a), u, a, d.age, when)
    ensures Indexed(users[u := d.(age := when)], ages')
  {
    hide Ordered, Members;
    var now := users[u := d.(age := when)];
    forall v: nat, a: nat ensures Inverts(now, ages', v, a) {
      assert Inverts(users, ages, v, a);
      assert Members(ages', a) == Moved(Members(ages, a), u, a, d.age, when);
      if v == u {
        assert v in now && now[v].age == when;
      } else {
        assert v in now <==> v in users;
      }
    }
  }

  lemma ForgottenIndexed(users: map<nat, Data>, ages: seq<Bucket>, ages': seq<Bucket>, u: nat)
    requires Indexed(users, ages) && Ordered(ages') && u in users
    requires forall a :: Members(ages', a) == Members(ages, a) - (if a == users[u].age && a != 0 then {u} else {})
    ensures Indexed(users - {u}, ages')
  {
    hide Ordered, Members;
    forall v: nat, a: nat ensures Inverts(users - {u}, ages', v, a) {
      assert Inverts(users, ages, v, a);
      assert Members(ages', a) == Members(ages, a) - (if a == users[u].age && a != 0 then {u} else {});
    }
  }

  lemma Regroup(a: seq<nat>, u: nat, b: seq<nat>)
    ensures a + ([u] + b) == (a + [u]) + b
  {
  }

  lemma AskingStops(users: map<nat, Data>, total: nat, max: nat, ages: seq<Bucket>, low: nat, replies: seq<Reply>)
    requires OrderedAbove(ages, low) && (total <= max || ages == [])
    ensures Asking(users, total, max, ages, low, replies) == Outcome(users, total, [])
  {
  }

  /** At most one user of each bucket is asked, from the oldest bucket on; asking starts only over
      the limit, and goes on until the total is within it or every bucket has been asked; nobody
      else's amount changes. */
  lemma {:induction false} AskingEffect(users: map<nat, Data>, total: nat, max: nat, ages: seq<Bucket>, low: nat,
                                        replies: seq<Reply>)
    requires OrderedAbove(ages, low)
    requires forall i, u :: 0 <= i < |ages| && u in ages[i].members ==> u in users
    ensures var o := Asking(users, total, max, ages, low, replies);
            && o.total <= total && o.users.Keys == users.Keys
            && |o.asked| <= |ages| && (forall i :: 0 <= i < |o.asked| ==> IsLeast(o.asked[i], ages[i].members))
            && (o.asked != [] <==> total > max && ages != [])
            && (o.total <= max || |o.asked| == |ages|)
            && (o.asked == [] ==> o.total == total && o.users == users)
            && (forall u :: u in users && u !in o.asked ==> o.users[u] == users[u])
    decreases |ages|
  {
    if total > max && ages != [] {
      var u := LeastOf(ages[0].members);
      var freed := replies != [] && replies[0].Freed?;
      var sz := if freed then replies[0].size else 0;
      var users' := if freed then Decreased(users, u, sz) else users;
      assert users'.Keys == users.Keys;
      var rest := if replies == [] then [] else replies[1..];
      AskingEffect(users', Less(total, Given(users, u, sz)), max, ages[1..], ages[0].age, rest);
      var o := Asking(users', Less(total, Given(users, u, sz)), max, ages[1..], ages[0].age, rest);
      forall i | 1 <= i < |[u] + o.asked| ensures IsLeast(([u] + o.asked)[i], ages[i].members) {
        assert ages[1..][i - 1] == ages[i];
      }
    }
  }

  /** Nobody is in two buckets. */
  ghost predicate Apart(ages: seq<Bucket>) {
    forall i, j :: 0 <= i < j < |ages| ==> ages[i].members !! ages[j].members
  }

  /** What a user is left with. */
  function LeftWith(was: nat, replies: seq<Reply>, i: nat): nat {
    var sz := if i < |replies| && replies[i].Freed? then replies[i].size else 0;
    if was < sz then 0 else was - sz
  }

  /** The users after the first of them has been asked. */
  ghost function FirstAsked(users: map<nat, Data>, ages: seq<Bucket>, replies: seq<Reply>): map<nat, Data>
    requires ages != [] && ages[0].members != {}
  {
    var u := LeastOf(ages[0].members);
    if replies != [] && replies[0].Freed? then Decreased(users, u, replies[0].size) else users
  }

  lemma FirstAskedExactly(users: map<nat, Data>, ages: seq<Bucket>, replies: seq<Reply>)
    requires ages != [] && ages[0].members != {} && LeastOf(ages[0].members) in users
    ensures var u, now := LeastOf(ages[0].members), FirstAsked(users, ages, replies);
            && now.Keys == users.Keys && now[u].amount == LeftWith(users[u].amount, replies, 0)
            && forall v :: v in users && v != u ==> now[v] == users[v]
  {
  }

  /** What the asking comes to after the first user has been asked. */
  ghost function AfterFirst(users: map<nat, Data>, total: nat, max: nat, ages: seq<Bucket>, replies: seq<Reply>)
    : Outcome
    requires ages != [] && ages[0].members != {} && OrderedAbove(ages[1..], ages[0].age)
  {
    var sz := if replies != [] && replies[0].Freed? then replies[0].size else 0;
    Asking(FirstAsked(users, ages, replies), Less(total, Given(users, LeastOf(ages[0].members), sz)), max, ages[1..],
           ages[0].age, if replies == [] then [] else replies[1..])
  }

  lemma AskingNext(users: map<nat, Data>, total: nat, max: nat, ages: seq<Bucket>, low: nat, replies: seq<Reply>)
    requires OrderedAbove(ages, low) && ages != []
    ensures ages[0].members != {} && OrderedAbove(ages[1..], ages[0].age)
    ensures total > max ==>
              var rest := AfterFirst(users, total, max, ages, replies);
              Asking(users, total, max, ages, low, replies)
              == rest.(asked := [LeastOf(ages[0].members)] + rest.asked)
  {
  }

  /** Whoever is asked loses what it says that it gives up, as far as it has that much, and nothing if it says
      nothing. */
  lemma {:induction false} AskedGives(users: map<nat, Data>, total: nat, max: nat, ages: seq<Bucket>, low: nat,
                                      replies: seq<Reply>, i: nat)
    requires OrderedAbove(ages, low) && Apart(ages) && AllKnown(users, ages)
    requires i < |Asking(users, total, max, ages, low, replies).asked|
    ensures var o := Asking(users, total, max, ages, low, replies); var u := o.asked[i];
            u in users && u in o.users && o.users[u].amount == LeftWith(users[u].amount, replies, i)
    decreases |ages|
  {
    hide Asking, FirstAsked, LeftWith, OrderedAbove;
    AskingEffect(users, total, max, ages, low, replies);
    AskingNext(users, total, max, ages, low, replies);
    var u, now := LeastOf(ages[0].members), FirstAsked(users, ages, replies);
    FirstAskedExactly(users, ages, replies);
    var o := AfterFirst(users, total, max, ages, replies);
    LaterKnown(users, now, ages);
    FirstThen(users, total, max, ages, replies);
    if i > 0 {
      var sz := if replies != [] && replies[0].Freed? then replies[0].size else 0;
      AskedGives(now, Less(total, Given(users, u, sz)), max, ages[1..], ages[0].age,
                 if replies == [] then [] else replies[1..], i - 1);
      assert o.asked[i - 1] in ages[i].members && ages[0].members !! ages[i].members;
      LeftLater(now[o.asked[i - 1]].amount, replies, i);
    }
  }

  predicate AllKnown(users: map<nat, Data>, ages: seq<Bucket>) {
    forall i, u :: 0 <= i < |ages| && u in ages[i].members ==> u in users
  }

  lemma LaterKnown(users: map<nat, Data>, now: map<nat, Data>, ages: seq<Bucket>)
    requires ages != [] && Apart(ages) && AllKnown(users, ages) && now.Keys == users.Keys
    ensures Apart(ages[1..]) && AllKnown(now, ages[1..])
  {
    assert forall j :: 0 <= j < |ages[1..]| ==> ages[1..][j] == ages[j + 1];
  }

  /** The first user is not asked again, so that its amount stays. */
  lemma FirstThen(users: map<nat, Data>, total: nat, max: nat, ages: seq<Bucket>, replies: seq<Reply>)
    requires ages != [] && ages[0].members != {} && OrderedAbove(ages[1..], ages[0].age) && Apart(ages)
    requires AllKnown(FirstAsked(users, ages, replies), ages)
    ensures var u, now, o := LeastOf(ages[0].members), FirstAsked(users, ages, replies),
                             AfterFirst(users, total, max, ages, replies);
            u in now && u in o.users && o.users[u] == now[u]
            && (forall k :: 0 <= k < |o.asked| ==> k + 1 < |ages| && o.asked[k] in ages[k + 1].members)
  {
    hide Asking, FirstAsked, OrderedAbove;
    var u, now := LeastOf(ages[0].members), FirstAsked(users, ages, replies);
    var sz := if replies != [] && replies[0].Freed? then replies[0].size else 0;
    LaterKnown(now, now, ages);
    AskingEffect(now, Less(total, Given(users, u, sz)), max, ages[1..], ages[0].age,
                 if replies == [] then [] else replies[1..]);
    var o := AfterFirst(users, total, max, ages, replies);
    forall k | 0 <= k < |o.asked| ensures k + 1 < |ages| && o.asked[k] in ages[k + 1].members && o.asked[k] != u {
      assert ages[1..][k] == ages[k + 1] && ages[0].members !! ages[k + 1].members;
    }
  }

  lemma LeftLater(was: nat, replies: seq<Reply>, i: nat)
    requires i > 0
    ensures LeftWith(was, replies, i) == LeftWith(was, if replies == [] then [] else replies[1..], i - 1)
  {
  }

  /** Every bucket's members have its age on record. */
  ghost predicate Dated(users: map<nat, Data>, ages: seq<Bucket>) {
    forall i, u :: 0 <= i < |ages| && u in ages[i].members ==> u in users && users[u].age == ages[i].age != 0
  }

  predicate Ascends(ages: seq<Bucket>) {
    forall i, j :: 0 <= i < j < |ages| ==> ages[i].age < ages[j].age
  }

  lemma BucketsDated(users: map<nat, Data>, ages: seq<Bucket>)
    requires Indexed(users, ages)
    ensures Dated(users, ages) && Ascends(ages) && Apart(ages)
  {
    hide Indexed;
    OrderedNow(users, ages);
    forall i, u | 0 <= i < |ages| && u in ages[i].members ensures u in users && users[u].age == ages[i].age != 0 {
      BucketUser(users, ages, i, u);
      BucketAge(users, ages, i, u);
    }
    forall i, j | 0 <= i < j < |ages| ensures ages[i].age < ages[j].age {
      AgesAscend(ages, 0, i, j);
    }
    forall i, j | 0 <= i < j < |ages| ensures ages[i].members !! ages[j].members {
      forall u | u in ages[i].members ensures u !in ages[j].members {
        assert users[u].age == ages[i].age != ages[j].age;
      }
    }
  }

  lemma BucketAge(users: map<nat, Data>, ages: seq<Bucket>, i: nat, u: nat)
    requires Indexed(users, ages) && i < |ages| && u in ages[i].members && u in users
    ensures users[u].age == ages[i].age != 0
  {
    MembersAt(ages, i, 0);
    assert Inverts(users, ages, u, ages[i].age);
  }

  lemma BucketFor(users: map<nat, Data>, ages: seq<Bucket>, u: nat)
    requires Indexed(users, ages) && u in users && users[u].age != 0
    ensures exists i :: 0 <= i < |ages| && ages[i].age == users[u].age
  {
    assert Inverts(users, ages, u, users[u].age);
    BucketAt(ages, users[u].age);
  }

  lemma OrderedNow(users: map<nat, Data>, ages: seq<Bucket>)
    requires Indexed(users, ages)
    ensures OrderedAbove(ages, 0)
  {
  }

  lemma {:induction false} AgesAscend(ages: seq<Bucket>, low: nat, i: nat, j: nat)
    requires OrderedAbove(ages, low) && i < j < |ages|
    ensures ages[i].age < ages[j].age
  {
    if i > 0 {
      AgesAscend(ages[1..], ages[0].age, i - 1, j - 1);
    } else {
      MembersAt(ages[1..], j - 1, ages[0].age);
    }
  }

  lemma {:induction false} BucketAt(ages: seq<Bucket>, age: nat)
    requires Members(ages, age) != {}
    ensures exists i :: 0 <= i < |ages| && ages[i].age == age
  {
    if ages == [] {
    } else if ages[0].age != age {
      BucketAt(ages[1..], age);
      var i :| 0 <= i < |ages[1..]| && ages[1..][i].age == age;
      assert ages[i + 1].age == age;
    }
  }

  /** Whoever is asked has the age of its bucket. */
  lemma AskedAge(users: map<nat, Data>, total: nat, max: nat, ages: seq<Bucket>, replies: seq<Reply>, i: nat)
    requires Indexed(users, ages) && OrderedAbove(ages, 0)
    requires i < |Asking(users, total, max, ages, 0, replies).asked|
    ensures var asked := Asking(users, total, max, ages, 0, replies).asked;
            i < |ages| && asked[i] in users && users[asked[i]].age == ages[i].age != 0
  {
    hide Asking, OrderedAbove, Indexed;
    BucketsDated(users, ages);
    AskingEffect(users, total, max, ages, 0, replies);
    assert Asking(users, total, max, ages, 0, replies).asked[i] in ages[i].members;
  }

  /** The users asked are asked in the order of their ages, the smallest age first. */
  lemma AskedInOrder(users: map<nat, Data>, total: nat, max: nat, ages: seq<Bucket>, replies: seq<Reply>,
                     i: nat, j: nat)
    requires Indexed(users, ages) && OrderedAbove(ages, 0)
    requires i < j < |Asking(users, total, max, ages, 0, replies).asked|
    ensures var asked := Asking(users, total, max, ages, 0, replies).asked;
            asked[i] in users && asked[j] in users && 0 < users[asked[i]].age < users[asked[j]].age
  {
    hide Asking, OrderedAbove, Indexed;
    AskedAge(users, total, max, ages, replies, i);
    AskedAge(users, total, max, ages, replies, j);
    BucketsDated(users, ages);
  }

  /** No age is passed over: before a user is asked, some user of every smaller age has been. */
  lemma AskedOldest(users: map<nat, Data>, total: nat, max: nat, ages: seq<Bucket>, replies: seq<Reply>,
                    i: nat, v: nat)
    requires Indexed(users, ages) && OrderedAbove(ages, 0)
    requires i < |Asking(users, total, max, ages, 0, replies).asked| && v in users && users[v].age != 0
    ensures var asked := Asking(users, total, max, ages, 0, replies).asked;
            asked[i] in users
            && (users[v].age < users[asked[i]].age ==>
                  exists j :: 0 <= j < i && asked[j] in users && users[asked[j]].age == users[v].age)
  {
    hide Asking, OrderedAbove, Indexed;
    var asked := Asking(users, total, max, ages, 0, replies).asked;
    AskedAge(users, total, max, ages, replies, i);
    BucketsDated(users, ages);
    if users[v].age < users[asked[i]].age {
      BucketFor(users, ages, v);
      var j :| 0 <= j < |ages| && ages[j].age == users[v].age;
      assert j < i;
      AskedAge(users, total, max, ages, replies, j);
    }
  }

  /** One turn of the asking. */
  lemma NextAsked(users: map<nat, Data>, total: nat, max: nat, ages: seq<Bucket>, i: nat, low: nat,
                  replies: seq<Reply>, u: nat)
    requires i < |ages| && OrderedAbove(ages[i..], low) && total > max
    requires ages[i].members != {} && u == LeastOf(ages[i].members)
    ensures OrderedAbove(ages[i + 1..], ages[i].age)
    ensures var freed := i < |replies| && replies[i].Freed?;
            var users' := if freed then Decreased(users, u, replies[i].size) else users;
            var total' := Less(total, Given(users, u, if freed then replies[i].size else 0));
            var next := Asking(users', total', max, ages[i + 1..], ages[i].age, replies[Min(i + 1, |replies|)..]);
            Asking(users, total, max, ages[i..], low, replies[Min(i, |replies|)..]) == next.(asked := [u] + next.asked)
  {
    hide Decreased;
    var left := replies[Min(i, |replies|)..];
    assert ages[i..][0] == ages[i] && ages[i..][1..] == ages[i + 1..];
    if i < |replies| {
      assert left[0] == replies[i] && left[1..] == replies[i + 1..];
    } else {
      assert left == [] && replies[Min(i + 1, |replies|)..] == [];
    }
  }

  lemma {:induction false} BucketUser(users: map<nat, Data>, ages: seq<Bucket>, i: nat, u: nat)
    requires Indexed(users, ages) && i < |ages| && u in ages[i].members
    ensures u in users
  {
    MembersAt(ages, i, 0);
    assert Inverts(users, ages, u, ages[i].age);
  }

  lemma {:induction false} MembersAt(ages: seq<Bucket>, i: nat, low: nat)
    requires OrderedAbove(ages, low) && i < |ages|
    ensures Members(ages, ages[i].age) == ages[i].members != {} && ages[i].age > low
  {
    if i == 0 {
    } else {
      MembersAt(ages[1..], i - 1, ages[0].age);
    }
  }

  /** Users that record no age are never asked, whatever the limit: this is the case of every
      payload queue, so that the quota that the documentation describes is not enforced on them. */
  lemma NobodyAsked(users: map<nat, Data>, ages: seq<Bucket>)
    requires Indexed(users, ages)
    ensures ages == [] <==> forall u :: u in users ==> users[u].age == 0
  {
    if ages != [] {
      var u :| u in ages[0].members;
      BucketUser(users, ages, 0, u);
      MembersAt(ages, 0, 0);
      assert Inverts(users, ages, u, ages[0].age);
    } else {
      forall u | u in users ensures users[u].age == 0 {
        assert Members(ages, users[u].age) == {};
        assert Inverts(users, ages, u, users[u].age);
      }
    }
  }

  /** Destroying a user takes its whole amount out of the total, however much it first gives up. */
  lemma DecreaseThenForget(users: map<nat, Data>, u: nat, sz: nat)
    requires u in users
    ensures var after := Decreased(users, u, sz);
            Given(users, u, sz) + after[u].amount == users[u].amount
            && Sum(after - {u}) == Sum(users) - users[u].amount
  {
    var after := Decreased(users, u, sz);
    DecreasedSum(users, u, sz);
    SumWithout(after, u);
  }
}
