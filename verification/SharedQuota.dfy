// Several payload queues that share one quota manager (queues.cc and quotas.cc together).
module SharedQuotas {
  import opened Basics
  import opened SpillQueue
  import opened QueueRuns
  import opened Quotas

  /** The queues, by the addresses under which the manager knows them, and the manager's state. */
  datatype Shared = Shared(
    queues: map<nat, Queue>,
    users: map<nat, Data>,
    total: nat,
    max: nat,
    ages: seq<Bucket>)

  /** The manager's users are the queues, each with its own charge, and the manager's tables agree. */
  ghost predicate Coherent(s: Shared) {
    && s.users.Keys == s.queues.Keys && s.total == Sum(s.users) && Indexed(s.users, s.ages)
    && forall u :: u in s.queues ==> s.users[u].amount == s.queues[u].amount
  }

  /** Every queue is valid, its files hold whole records, and its charge covers them. */
  predicate Covered(s: Shared) {
    forall u :: u in s.queues ==> Fine(s.queues[u])
  }

  predicate Fine(q: Queue) {
    Valid(q) && AllWhole(q.files, q.out) && Excess(q) >= 0
  }

  // ---------- what the manager is told ----------

  /** A queue changes, and tells the manager by how much its charge has. */
  function Charged(s: Shared, u: nat, q: Queue): Shared
    requires u in s.users
  {
    var was := s.users[u].amount;
    if q.amount >= was then
      s.(queues := s.queues[u := q], users := Increased(s.users, u, q.amount - was),
         total := s.total + (q.amount - was))
    else
      s.(queues := s.queues[u := q], users := Decreased(s.users, u, was - q.amount),
         total := Less(s.total, Quotas.Given(s.users, u, was - q.amount)))
  }

  lemma ChargedCoherent(s: Shared, u: nat, q: Queue)
    requires Coherent(s) && u in s.queues
    ensures var c := Charged(s, u, q);
            && Coherent(c) && c.queues == s.queues[u := q] && c.max == s.max && c.ages == s.ages
            && c.users == s.users[u := s.users[u].(amount := q.amount)]
  {
    hide Indexed;
    var d := s.users[u].(amount := q.amount);
    SumSet(s.users, u, d);
    AmountIndexed(s.users, s.ages, u, d);
    assert Charged(s, u, q).users == s.users[u := d];
  }

  /** While the total is over the limit, the first queue of the next bucket discards its oldest file. */
  ghost function AskAll(s: Shared, ages: seq<Bucket>, low: nat): Shared
    requires OrderedAbove(ages, low) && Askable(s, ages)
    decreases |ages|
  {
    if s.total <= s.max || ages == [] then s
    else
      var u := LeastOf(ages[0].members);
      AskAll(Charged(s, u, Discard(s.queues[u])), ages[1..], ages[0].age)
  }

  /** Whoever is in a bucket is a queue. */
  predicate Askable(s: Shared, ages: seq<Bucket>) {
    s.users.Keys == s.queues.Keys && forall i, u :: 0 <= i < |ages| && u in ages[i].members ==> u in s.queues
  }

  function ReplyOf(q: Queue): Reply {
    if q.files == [] then Nothing else Freed(|q.files[0].bytes|)
  }

  /** What the manager hears from the queues that it asks. */
  ghost function Replies(s: Shared, ages: seq<Bucket>, low: nat): seq<Reply>
    requires OrderedAbove(ages, low) && Askable(s, ages)
    decreases |ages|
  {
    if s.total <= s.max || ages == [] then []
    else
      var u := LeastOf(ages[0].members);
      [ReplyOf(s.queues[u])] + Replies(Charged(s, u, Discard(s.queues[u])), ages[1..], ages[0].age)
  }

  lemma DiscardReplies(s: Shared, u: nat)
    requires Coherent(s) && u in s.queues
    ensures var c, r := Charged(s, u, Discard(s.queues[u])), ReplyOf(s.queues[u]);
            && c.users == (if r.Freed? then Decreased(s.users, u, r.size) else s.users)
            && c.total == Less(s.total, Quotas.Given(s.users, u, if r.Freed? then r.size else 0))
  {
    hide Indexed, DiscUse;
    ChargedCoherent(s, u, Discard(s.queues[u]));
    var r := ReplyOf(s.queues[u]);
    SumWithout(s.users, u);
    if r == Nothing { assert s.users[u := s.users[u]] == s.users; }
  }

  /** The asking that the manager does, with discards for replies, is this. */
  lemma {:induction false} AskJoins(s: Shared, ages: seq<Bucket>, low: nat)
    requires Coherent(s) && OrderedAbove(ages, low) && Askable(s, ages)
    ensures var a, o := AskAll(s, ages, low), Asking(s.users, s.total, s.max, ages, low, Replies(s, ages, low));
            && Coherent(a) && a.users == o.users && a.total == o.total
            && a.queues.Keys == s.queues.Keys && a.max == s.max && a.ages == s.ages
    decreases |ages|
  {
    hide Indexed, Discard, ReplyOf, Charged, Decreased;
    if s.total > s.max && ages != [] {
      var u := LeastOf(ages[0].members);
      var q := Discard(s.queues[u]);
      ChargedCoherent(s, u, q);
      DiscardReplies(s, u);
      AskJoins(Charged(s, u, q), ages[1..], ages[0].age);
      assert Replies(s, ages, low)[1..] == Replies(Charged(s, u, q), ages[1..], ages[0].age);
    }
  }

  lemma {:induction false} AllAskable(s: Shared)
    requires Coherent(s)
    ensures Askable(s, s.ages) && OrderedAbove(s.ages, 0)
  {
    forall i, u | 0 <= i < |s.ages| && u in s.ages[i].members ensures u in s.queues {
      BucketUser(s.users, s.ages, i, u);
    }
  }

  // ---------- charges that have gone wrong ----------

  /** The queues whose charge is not what is on disc. */
  function Wrong(s: Shared): set<nat> {
    set u | u in s.queues && Excess(s.queues[u]) != 0
  }

  function Disc(queues: map<nat, Queue>): map<nat, Data> {
    map u | u in queues :: Data(DiscUse(queues[u].files, queues[u].out), 0)
  }

  /** What all the queues have on disc. */
  ghost function DiscTotal(s: Shared): nat {
    Sum(Disc(s.queues))
  }

  lemma {:induction false} SumCovers(a: map<nat, Data>, b: map<nat, Data>)
    requires a.Keys == b.Keys && forall u :: u in a ==> a[u].amount >= b[u].amount
    ensures Sum(a) >= Sum(b)
    ensures Sum(a) == Sum(b) <==> forall u :: u in a ==> a[u].amount == b[u].amount
    decreases |a|
  {
    if a == map[] {
      assert b == map[];
    } else {
      var u :| u in a;
      SumWithout(a, u);
      SumWithout(b, u);
      SumCovers(a - {u}, b - {u});
      assert forall v :: v in a ==> v == u || v in a - {u};
    }
  }

  /** The total is never below what is on disc, and equal to it exactly when every charge is right. */
  lemma TotalExact(s: Shared)
    requires Coherent(s) && Covered(s)
    ensures s.total >= DiscTotal(s)
    ensures s.total == DiscTotal(s) <==> Wrong(s) == {}
  {
    hide Indexed, Valid, AllWhole, DiscUse, Sum;
    forall u | u in s.queues ensures s.users[u].amount - Disc(s.queues)[u].amount == Excess(s.queues[u]) >= 0 {
      assert Fine(s.queues[u]);
    }
    SumCovers(s.users, Disc(s.queues));
    assert Wrong(s) == {} <==> forall u :: u in s.queues ==> u !in Wrong(s);
  }

  /** One operation of one queue. */
  lemma ChargeStep(s: Shared, u: nat, op: Op)
    requires Coherent(s) && Covered(s) && u in s.queues && Admissible(s.queues[u], op) && !op.DoRestart?
    ensures var c := Charged(s, u, Step(s.queues[u], op));
            && Coherent(c) && Covered(c)
            && Wrong(c) == Wrong(s) + if ChargeKeeps(s.queues[u], op) then {} else {u}
  {
    hide Indexed, Valid, AllWhole, Excess, Step, ChargeKeeps, Admissible, Charged;
    var q := s.queues[u];
    assert Fine(q);
    StepCharge(q, op);
    StepEffect(q, op);
    ChargedCoherent(s, u, Step(q, op));
    var c := Charged(s, u, Step(q, op));
    forall v | v in c.queues ensures Fine(c.queues[v]) {
      if v != u { assert Fine(s.queues[v]); }
    }
    forall v ensures v in Wrong(c) <==> v in Wrong(s) || (v == u && !ChargeKeeps(q, op)) {
      if v != u { assert v in c.queues <==> v in s.queues; }
    }
  }

  /** The queues whose charge goes wrong because of what they are asked to discard. */
  ghost function AskedWrong(s: Shared, ages: seq<Bucket>, low: nat): set<nat>
    requires OrderedAbove(ages, low) && Askable(s, ages)
    decreases |ages|
  {
    if s.total <= s.max || ages == [] then {}
    else
      var u := LeastOf(ages[0].members);
      (if ChargeKeeps(s.queues[u], DoDiscard) then {} else {u})
      + AskedWrong(Charged(s, u, Discard(s.queues[u])), ages[1..], ages[0].age)
  }

  lemma {:induction false} AskCharges(s: Shared, ages: seq<Bucket>, low: nat)
    requires Coherent(s) && Covered(s) && OrderedAbove(ages, low) && Askable(s, ages)
    ensures var a := AskAll(s, ages, low);
            Covered(a) && Wrong(a) == Wrong(s) + AskedWrong(s, ages, low)
    decreases |ages|
  {
    hide Coherent, Covered, Discard, Charged, ChargeKeeps, Wrong, Admissible;
    if s.total > s.max && ages != [] {
      var u := LeastOf(ages[0].members);
      Discards(s, u);
      ChargeStep(s, u, DoDiscard);
      ChargedCoherent(s, u, Discard(s.queues[u]));
      AskCharges(Charged(s, u, Discard(s.queues[u])), ages[1..], ages[0].age);
    }
  }

  lemma Discards(s: Shared, u: nat)
    requires u in s.queues
    ensures Step(s.queues[u], DoDiscard) == Discard(s.queues[u]) && Admissible(s.queues[u], DoDiscard)
  {
  }

  // ---------- runs ----------

  datatype Deed =
    | Use(u: nat, op: Op)
    | Make(u: nat, maxMem: nat, files: seq<File>)
    | Unmake(u: nat, now: nat)
    | SetLimit(max: nat)
    | SetAge(u: nat, when: nat)

  predicate Possible(s: Shared, d: Deed) {
    match d
    case Use(u, op) => u in s.queues && Admissible(s.queues[u], op) && !op.DoRestart?
    case Make(u, maxMem, files) => u !in s.queues && Valid(Startup(maxMem, files)) && AllWhole(files, Closed)
    case Unmake(u, _) => u in s.queues
    case SetLimit(_) => true
    case SetAge(u, _) => u in s.queues
  }

  /** The users whose age changes go to another bucket. */
  function Aged(ages: seq<Bucket>, u: nat, was: nat, when: nat): seq<Bucket> {
    if was == when then ages
    else
      var left := if was == 0 then ages else Removed(ages, u, was);
      if when == 0 then left else Inserted(left, u, when)
  }

  /** What is done before any queue is asked. */
  function Deal(s: Shared, d: Deed): Shared
    requires Possible(s, d) && s.users.Keys == s.queues.Keys
  {
    match d
    case Use(u, op) => Charged(s, u, Step(s.queues[u], op))
    case Make(u, maxMem, files) =>
      var q := Startup(maxMem, files);
      s.(queues := s.queues[u := q], users := Increased(s.users, u, q.amount), total := s.total + q.amount)
    case Unmake(u, _) =>
      s.(queues := s.queues - {u}, users := s.users - {u}, total := Less(s.total, s.users[u].amount),
         ages := Aged(s.ages, u, s.users[u].age, 0))
    case SetLimit(max) => s.(max := max)
    case SetAge(u, when) =>
      s.(users := s.users[u := s.users[u].(age := when)], ages := Aged(s.ages, u, s.users[u].age, when))
  }

  /** Only an increase, or a new limit, makes the manager look at its total. */
  predicate Checks(s: Shared, d: Deed)
    requires Possible(s, d)
  {
    match d
    case Use(u, op) => Step(s.queues[u], op).amount > s.queues[u].amount
    case Make(_, _, _) => true
    case Unmake(_, _) => false
    case SetLimit(_) => true
    case SetAge(_, _) => false
  }

  /** A deed, and the asking that follows it. */
  ghost function Done(s: Shared, d: Deed): (t: Shared)
    requires Coherent(s) && Possible(s, d)
    ensures Coherent(t)
  {
    DealKeeps(s, d);
    Asked(Deal(s, d), Checks(s, d))
  }

  ghost function Asked(s: Shared, checks: bool): (t: Shared)
    requires Coherent(s)
    ensures Coherent(t)
  {
    AllAskable(s);
    AskJoins(s, s.ages, 0);
    if checks then AskAll(s, s.ages, 0) else s
  }

  /** Before anybody is asked, the tables agree, every charge covers the files, and the wrong ones are
      those of before, less a queue that goes, and that of a queue whose operation is a wrong one. */
  lemma DealKeeps(s: Shared, d: Deed)
    requires Coherent(s) && Possible(s, d)
    ensures Coherent(Deal(s, d))
    ensures Covered(s) ==> Covered(Deal(s, d)) && Wrong(Deal(s, d)) == DealtWrong(s, d, Wrong(s))
  {
    hide Coherent, Covered, Wrong, Charged, Step, Startup;
    match d
    case Use(u, op) =>
      UseKeeps(s, u, op);
    case Make(u, maxMem, files) =>
      StartsExact(maxMem, files);
      MakeKeeps(s, u, Startup(maxMem, files));
    case Unmake(u, _) =>
      UnmakeKeeps(s, u);
    case SetLimit(_) =>
      LimitKeeps(s, d);
    case SetAge(u, when) =>
      AgeKeeps(s, u, when);
  }

  /** The wrong charges after a deed, before anybody is asked. */
  function DealtWrong(s: Shared, d: Deed, wrong: set<nat>): set<nat>
    requires Possible(s, d)
  {
    match d
    case Use(u, op) => wrong + if ChargeKeeps(s.queues[u], op) then {} else {u}
    case Unmake(u, _) => wrong - {u}
    case _ => wrong
  }

  lemma UseKeeps(s: Shared, u: nat, op: Op)
    requires Coherent(s) && u in s.queues && Admissible(s.queues[u], op) && !op.DoRestart?
    ensures var c := Charged(s, u, Step(s.queues[u], op));
            && Coherent(c)
            && (Covered(s) ==> Covered(c) && Wrong(c) == Wrong(s) + if ChargeKeeps(s.queues[u], op) then {} else {u})
  {
    hide Coherent, Covered, Wrong, Charged, Step, ChargeKeeps, Admissible;
    ChargedCoherent(s, u, Step(s.queues[u], op));
    if Covered(s) { ChargeStep(s, u, op); }
  }

  lemma StartsExact(maxMem: nat, files: seq<File>)
    ensures var q := Startup(maxMem, files); q.files == files && q.out == Closed && Excess(q) == 0
  {
  }

  lemma MakeKeeps(s: Shared, u: nat, q: Queue)
    requires Coherent(s) && u !in s.queues && Valid(q) && AllWhole(q.files, q.out) && Excess(q) == 0
    ensures var t := s.(queues := s.queues[u := q], users := Increased(s.users, u, q.amount),
                        total := s.total + q.amount);
            Coherent(t) && (Covered(s) ==> Covered(t) && Wrong(t) == Wrong(s))
  {
    hide Indexed, Valid, AllWhole, Excess;
    SumSet(s.users, u, Data(q.amount, 0));
    AmountIndexed(s.users, s.ages, u, Data(q.amount, 0));
    assert Increased(s.users, u, q.amount) == s.users[u := Data(q.amount, 0)];
    var t := s.(queues := s.queues[u := q], users := Increased(s.users, u, q.amount), total := s.total + q.amount);
    if Covered(s) {
      forall v | v in t.queues ensures Fine(t.queues[v]) {
        if v != u { assert Fine(s.queues[v]); }
      }
    }
  }

  lemma AgedEffect(ages: seq<Bucket>, u: nat, was: nat, when: nat)
    requires Ordered(ages)
    ensures Ordered(Aged(ages, u, was, when))
    ensures forall a :: Members(Aged(ages, u, was, when), a) == Moved(Members(ages, a), u, a, was, when)
  {
    hide Members, Removed, Inserted;
    if was != when {
      if was != 0 { RemovedEffect(ages, u, was, 0); }
      var left := if was == 0 then ages else Removed(ages, u, was);
      if when != 0 { InsertedEffect(left, u, when, 0); }
      NoMembers(ages, 0, 0);
      NoMembers(Aged(ages, u, was, when), 0, 0);
    }
  }

  lemma UnmakeKeeps(s: Shared, u: nat)
    requires Coherent(s) && u in s.queues
    ensures var t := s.(queues := s.queues - {u}, users := s.users - {u}, total := Less(s.total, s.users[u].amount),
                        ages := Aged(s.ages, u, s.users[u].age, 0));
            && Coherent(t) && t.total == s.total - s.users[u].amount
            && (Covered(s) ==> Covered(t) && Wrong(t) == Wrong(s) - {u})
  {
    hide Valid, AllWhole, Excess, Members, Ordered, Aged;
    SumWithout(s.users, u);
    AgedEffect(s.ages, u, s.users[u].age, 0);
    ForgottenIndexed(s.users, s.ages, Aged(s.ages, u, s.users[u].age, 0), u);
    var t := s.queues - {u};
    if Covered(s) {
      forall v | v in t ensures Fine(t[v]) {
        assert Fine(s.queues[v]);
      }
    }
  }

  lemma LimitKeeps(s: Shared, d: Deed)
    requires Coherent(s) && d.SetLimit?
    ensures var t := s.(max := d.max);
            Coherent(t) && (Covered(s) ==> Covered(t) && Wrong(t) == Wrong(s))
  {
    hide Indexed, Valid, AllWhole, Excess;
  }

  lemma AgeKeeps(s: Shared, u: nat, when: nat)
    requires Coherent(s) && u in s.queues
    ensures var t := s.(users := s.users[u := s.users[u].(age := when)], ages := Aged(s.ages, u, s.users[u].age, when));
            Coherent(t) && (Covered(s) ==> Covered(t) && Wrong(t) == Wrong(s))
  {
    hide Valid, AllWhole, Excess, Members, Ordered, Aged;
    AgedEffect(s.ages, u, s.users[u].age, when);
    MovedIndexed(s.users, s.ages, Aged(s.ages, u, s.users[u].age, when), u, s.users[u], when);
    SumSet(s.users, u, s.users[u]);
    SumSet(s.users, u, s.users[u].(age := when));
  }

  ghost function AskedSpoils(s: Shared, checks: bool): set<nat>
    requires Coherent(s)
  {
    AllAskable(s);
    if checks then AskedWrong(s, s.ages, 0) else {}
  }

  lemma AskedKeeps(s: Shared, checks: bool)
    requires Coherent(s) && Covered(s)
    ensures Covered(Asked(s, checks)) && Wrong(Asked(s, checks)) == Wrong(s) + AskedSpoils(s, checks)
  {
    AllAskable(s);
    hide Coherent, Covered, Wrong, Askable;
    AskCharges(s, s.ages, 0);
  }

  /** The wrong charges after a deed. */
  ghost function DoneWrong(s: Shared, d: Deed, wrong: set<nat>): set<nat>
    requires Coherent(s) && Possible(s, d)
  {
    DealKeeps(s, d);
    DealtWrong(s, d, wrong) + AskedSpoils(Deal(s, d), Checks(s, d))
  }

  lemma DoneKeeps(s: Shared, d: Deed)
    requires Coherent(s) && Covered(s) && Possible(s, d)
    ensures Covered(Done(s, d)) && Wrong(Done(s, d)) == DoneWrong(s, d, Wrong(s))
  {
    assert s.users.Keys == s.queues.Keys;
    hide Coherent, Covered, Wrong, Deal, DealtWrong, Checks, Asked, AskedSpoils;
    DealKeeps(s, d);
    AskedKeeps(Deal(s, d), Checks(s, d));
  }

  ghost predicate PossibleRun(s: Shared, ds: seq<Deed>)
    requires Coherent(s)
    decreases |ds|
  {
    ds == [] || (Possible(s, ds[0]) && PossibleRun(Done(s, ds[0]), ds[1..]))
  }

  ghost function AfterAll(s: Shared, ds: seq<Deed>): Shared
    requires Coherent(s) && PossibleRun(s, ds)
    decreases |ds|
  {
    if ds == [] then s else AfterAll(Done(s, ds[0]), ds[1..])
  }

  ghost function WrongAfter(s: Shared, ds: seq<Deed>, wrong: set<nat>): set<nat>
    requires Coherent(s) && PossibleRun(s, ds)
    decreases |ds|
  {
    if ds == [] then wrong else WrongAfter(Done(s, ds[0]), ds[1..], DoneWrong(s, ds[0], wrong))
  }

  lemma {:induction false} RunKeepsShared(s: Shared, ds: seq<Deed>)
    requires Coherent(s) && Covered(s) && PossibleRun(s, ds)
    ensures var r := AfterAll(s, ds);
            Coherent(r) && Covered(r) && Wrong(r) == WrongAfter(s, ds, Wrong(s))
    decreases |ds|
  {
    hide Coherent, Covered, Wrong, Done, DoneWrong, Possible;
    if ds == [] {
    } else {
      DoneKeeps(s, ds[0]);
      RunKeepsShared(Done(s, ds[0]), ds[1..]);
    }
  }

  /** Over every interleaving of the operations of any number of queues, which come and go, with every
      discard that the manager asks for on the way: each queue's charge is what the manager has of it,
      the total is the sum of the charges and never below what all the queues have on disc, and it is
      exactly that if and only if no queue is left whose own operations, or whose discards, got its
      charge wrong. */
  lemma SharedRun(s: Shared, ds: seq<Deed>)
    requires Coherent(s) && Covered(s) && PossibleRun(s, ds)
    ensures var r := AfterAll(s, ds);
            && Coherent(r) && r.total >= DiscTotal(r)
            && (r.total == DiscTotal(r) <==> WrongAfter(s, ds, Wrong(s)) == {})
  {
    hide Coherent, Covered, Wrong, PossibleRun, AfterAll, WrongAfter, DiscTotal;
    RunKeepsShared(s, ds);
    TotalExact(AfterAll(s, ds));
  }

  /** A manager with no users yet. */
  ghost function Unused(max: nat): (s: Shared)
    ensures Coherent(s) && Covered(s) && Wrong(s) == {}
  {
    Shared(map[], map[], 0, max, [])
  }

  /** From a manager without users, over every interleaving: the total is never below what all the queues have on
      disc, and exactly that if and only if none of the queues that are left got its charge wrong. */
  lemma SharedFromStart(max: nat, ds: seq<Deed>)
    requires PossibleRun(Unused(max), ds)
    ensures var r := AfterAll(Unused(max), ds);
            && Coherent(r) && r.total >= DiscTotal(r)
            && (r.total == DiscTotal(r) <==> WrongAfter(Unused(max), ds, {}) == {})
  {
    hide Coherent, Covered, Wrong, PossibleRun, AfterAll, WrongAfter, DiscTotal, Unused;
    SharedRun(Unused(max), ds);
  }
}
