// Events (events.hh) and what may happen to one: the calls of its users, and the moves of the
// scheduler.  What befalls an event is a function of its own history alone.
module Events {
  import opened Basics

  datatype Kind = Descriptor | Timed | Idle | Signal

  class Event {
    const kind: Kind
    var prioUsr: nat
    var prioAppl: nat
    var when: nat
    var isSet: bool
    var signo: int
    var fd: int

    constructor (kind: Kind)
      ensures this.kind == kind && Pristine()
    {
      this.kind := kind;
      prioUsr, prioAppl, when, isSet, signo, fd := 1, 0, 0, false, 0, -1;
    }

    /** As constructed: neither set nor queued. */
    predicate Pristine()
      reads this
    {
      prioUsr == 1 && prioAppl == 0 && !isSet && signo == 0 && fd == -1
    }
  }

  /** What a user of the library may do with an event. */
  datatype Call =
    | SetTimer(e: Event, when: nat)
    | CancelTimer(e: Event)
    | SetIdle(e: Event)
    | CancelIdle(e: Event)
    | SetSignal(e: Event, signo: int)
    | CancelSignal(e: Event)
    | SetPrio(e: Event, p: nat)
    | Watch(e: Event, fd: int)
    | Unwatch(e: Event)

  /** Everything that is known of one event. */
  datatype View = View(prioUsr: nat, prioAppl: nat, when: nat, isSet: bool, idle: bool, signo: int, fd: int)

  /** While a queue is drained, an event is called upon by a handler, or it is notified. */
  datatype Act = Done(call: Call) | Notify(n: Event)

  /** What a poll is woken for: the signals that were read, or a descriptor. */
  datatype Report = Signalled(signos: seq<int>) | Reported(d: Event)

  function Subject(a: Act): Event {
    if a.Done? then a.call.e else a.n
  }

  function Waiting(v: View): View {
    v.(prioAppl := if v.prioAppl != 0 then v.prioAppl else v.prioUsr)
  }

  function Called(c: Call, v: View): View {
    match c
    case SetTimer(_, when) => v.(when := when, isSet := true)
    case CancelTimer(_) => v.(isSet := false, prioAppl := 0)
    case SetIdle(_) => v.(idle := true, prioAppl := 0)
    case CancelIdle(_) => v.(idle := false, prioAppl := 0)
    case SetSignal(_, signo) => v.(signo := signo)
    case CancelSignal(_) => v.(signo := 0)
    case SetPrio(_, p) => if p == 0 then v else v.(prioUsr := p, prioAppl := if v.prioAppl != 0 then p else 0)
    case Watch(_, fd) => if fd < 0 then v else v.(fd := fd, prioAppl := 0)
    case Unwatch(_) => v.(fd := -1, prioAppl := 0)
  }

  function Acted(a: Act, v: View): View {
    if a.Done? then Called(a.call, v) else v.(prioAppl := 0)
  }

  /** One event after a history: only the acts on it matter. */
  function After(acts: seq<Act>, e: Event, v: View): View {
    if acts == [] then v
    else
      var last := acts[|acts| - 1];
      var u := After(acts[..|acts| - 1], e, v);
      if Subject(last) == e then Acted(last, u) else u
  }

  function Dones(calls: seq<Call>): (acts: seq<Act>)
    ensures |acts| == |calls| && forall i :: 0 <= i < |calls| ==> acts[i] == Done(calls[i])
  {
    if calls == [] then [] else Dones(calls[..|calls| - 1]) + [Done(calls[|calls| - 1])]
  }

  lemma {:induction false} AfterAppend(a: seq<Act>, b: seq<Act>, e: Event, v: View)
    ensures After(a + b, e, v) == After(b, e, After(a, e, v))
  {
    if b == [] {
      assert a + b == a;
    } else {
      assert (a + b)[..|a + b| - 1] == a + b[..|b| - 1];
      AfterAppend(a, b[..|b| - 1], e, v);
    }
  }

  /** The signals that a signal set can hold. */
  predicate Known(signo: int) {
    1 <= signo <= 64
  }

  /** A call that its event understands, and that does not throw on the way. */
  predicate Proper(c: Call) {
    match c
    case SetTimer(e, _) => e.kind == Timed
    case CancelTimer(e) => e.kind == Timed
    case SetIdle(e) => e.kind == Idle
    case CancelIdle(e) => e.kind == Idle
    case SetSignal(e, signo) => e.kind == Signal && (signo == 0 || Known(signo))
    case CancelSignal(e) => e.kind == Signal
    case SetPrio(_, _) => true
    case Watch(e, _) => e.kind == Descriptor
    case Unwatch(e) => e.kind == Descriptor
  }

  // ---------- gathering ----------

  function Raised(signos: seq<int>, v: View): View {
    if signos == [] then v
    else
      var s, u := signos[|signos| - 1], Raised(signos[..|signos| - 1], v);
      if s != 0 && u.signo == s then Waiting(u.(signo := 0)) else u
  }

  function Told(reports: seq<Report>, e: Event, v: View): View {
    if reports == [] then v
    else
      var u := Told(reports[..|reports| - 1], e, v);
      match reports[|reports| - 1]
      case Signalled(signos) => Raised(signos, u)
      case Reported(d) => if d == e then Waiting(u) else u
  }

  function Expired(v: View, now: nat): View {
    if v.isSet && v.when <= now then Waiting(v.(isSet := false)) else v
  }

  function Rested(v: View): View {
    if v.idle then Waiting(v.(idle := false)) else v
  }

  function Gathered(reports: seq<Report>, now: nat, e: Event, v: View): View {
    Rested(Expired(Told(reports, e, v), now))
  }

  function GatheredAll(reports: seq<Report>, now: nat, views: map<Event, View>): map<Event, View> {
    map e | e in views :: Gathered(reports, now, e, views[e])
  }

  predicate Comes(reports: seq<Report>, signo: int) {
    signo != 0 && exists i :: 0 <= i < |reports| && reports[i].Signalled? && signo in reports[i].signos
  }

  lemma {:induction false} RaisedEffect(signos: seq<int>, v: View)
    requires v.prioUsr != 0
    ensures var hit := v.signo != 0 && v.signo in signos;
            Raised(signos, v) == if hit then Waiting(v.(signo := 0)) else v
  {
    if signos == [] {
    } else {
      var n := |signos| - 1;
      RaisedEffect(signos[..n], v);
      assert signos == signos[..n] + [signos[n]];
    }
  }

  lemma {:induction false} ToldEffect(reports: seq<Report>, e: Event, v: View)
    requires v.prioUsr != 0
    ensures var u := if Comes(reports, v.signo) then v.(signo := 0) else v;
            Told(reports, e, v) == if Comes(reports, v.signo) || Reported(e) in reports then Waiting(u) else u
  {
    if reports == [] {
    } else {
      var n := |reports| - 1;
      ToldEffect(reports[..n], e, v);
      assert reports == reports[..n] + [reports[n]];
      assert Comes(reports, v.signo) <==>
             Comes(reports[..n], v.signo) || (v.signo != 0 && reports[n].Signalled? && v.signo in reports[n].signos);
      if reports[n].Signalled? { RaisedEffect(reports[n].signos, Told(reports[..n], e, v)); }
    }
  }

  /** What a poll gathers: whatever was queued, reported, signalled, due or idle is queued, and
      nothing else; a timer that is not yet due and a signal that did not come stay set. */
  lemma GatheredEffect(reports: seq<Report>, now: nat, e: Event, v: View)
    requires v.prioUsr != 0
    ensures var u := Gathered(reports, now, e, v);
            var due := v.isSet && v.when <= now;
            && (u.prioAppl != 0 <==>
                v.prioAppl != 0 || Reported(e) in reports || Comes(reports, v.signo) || due || v.idle)
            && (u.prioAppl == v.prioAppl || (v.prioAppl == 0 && u.prioAppl == v.prioUsr))
            && u.prioUsr == v.prioUsr && u.fd == v.fd && u.when == v.when
            && (u.isSet <==> v.isSet && !due) && !u.idle
            && u.signo == if Comes(reports, v.signo) then 0 else v.signo
  {
    ToldEffect(reports, e, v);
  }

  // ---------- draining ----------

  /** Whoever is notified is in the queue at that moment. */
  ghost predicate ActsAt(acts: seq<Act>, p: nat, views: map<Event, View>) {
    && (forall i :: 0 <= i < |acts| ==> Subject(acts[i]) in views)
    && (forall i :: 0 <= i < |acts| && acts[i].Notify? ==> After(acts[..i], acts[i].n, views[acts[i].n]).prioAppl == p)
  }

  lemma ActsOn(acts: seq<Act>, more: seq<Act>, calls: seq<Call>, e: Event, p: nat, views: map<Event, View>)
    requires ActsAt(acts, p, views) && e in views && After(acts, e, views[e]).prioAppl == p
    requires more == [Notify(e)] + Dones(calls) && forall c :: c in calls ==> c.e in views
    ensures ActsAt(acts + more, p, views)
  {
    hide After;
    var all := acts + more;
    forall i | 0 <= i < |all| ensures Subject(all[i]) in views {
      if i >= |acts| + 1 { assert all[i] == Done(calls[i - |acts| - 1]) && calls[i - |acts| - 1] in calls; }
    }
    forall i | 0 <= i < |all| && all[i].Notify? ensures After(all[..i], all[i].n, views[all[i].n]).prioAppl == p {
      if i < |acts| {
        assert all[..i] == acts[..i];
      } else {
        assert all[..|acts|] == acts;
      }
    }
  }

  /** How a queue is drained: it is the first that is not empty; whoever is notified is in it at that
      moment; and it is empty in the end. */
  ghost predicate Drains(acts: seq<Act>, p: nat, views: map<Event, View>) {
    && ActsAt(acts, p, views)
    && (forall e :: e in views && views[e].prioAppl != 0 ==> 0 < p <= views[e].prioAppl)
    && (p == 0 ==> acts == [])
    && (p != 0 ==> exists e :: e in views && views[e].prioAppl == p)
    && (p != 0 ==> forall e :: e in views ==> After(acts, e, views[e]).prioAppl != p)
  }

  lemma NothingDone(views: map<Event, View>)
    ensures forall e, v :: After([], e, v) == v
    ensures forall p :: ActsAt([], p, views)
  {
  }

  lemma DrainsSo(acts: seq<Act>, p: nat, views: map<Event, View>)
    requires ActsAt(acts, p, views)
    requires forall e :: e in views && views[e].prioAppl != 0 ==> 0 < p <= views[e].prioAppl
    requires p == 0 ==> acts == []
    requires p != 0 ==> exists e :: e in views && views[e].prioAppl == p
    requires p != 0 ==> forall e :: e in views ==> After(acts, e, views[e]).prioAppl != p
    ensures Drains(acts, p, views)
  {
  }

  /** No call and no notification queues an event. */
  lemma {:induction false} StaysOut(acts: seq<Act>, e: Event, v: View)
    requires v.prioAppl == 0
    ensures After(acts, e, v).prioAppl == 0
  {
    if acts == [] {
    } else {
      StaysOut(acts[..|acts| - 1], e, v);
    }
  }

  /** The calls after which an event is to be left alone, or starts afresh. */
  predicate Cancels(c: Call) {
    c.CancelTimer? || c.SetIdle? || c.CancelIdle? || c.Unwatch? || (c.Watch? && c.fd >= 0)
  }

  /** What a handler cancels, or sets idle or watching afresh, is not notified later in the same drain, even if it
      was due and queued already. */
  lemma CancelledStays(acts: seq<Act>, p: nat, views: map<Event, View>, i: nat, j: nat)
    requires Drains(acts, p, views) && i < j < |acts| && acts[i].Done? && Cancels(acts[i].call)
    ensures acts[j] != Notify(acts[i].call.e)
  {
    hide After, Cancels, Called;
    if acts[j].Notify? && acts[j].n == acts[i].call.e {
      var e := acts[j].n;
      var v := views[e];
      assert p != 0 by { DrainsSome(acts, p, views); }
      CancelledOut(acts, i, v);
      assert acts[..j] == acts[..i + 1] + acts[i + 1..j];
      AfterAppend(acts[..i + 1], acts[i + 1..j], e, v);
      StaysOut(acts[i + 1..j], e, After(acts[..i + 1], e, v));
    }
  }

  lemma DrainsSome(acts: seq<Act>, p: nat, views: map<Event, View>)
    requires Drains(acts, p, views) && acts != []
    ensures p != 0
  {
    hide After;
  }

  lemma CancelledOut(acts: seq<Act>, i: nat, v: View)
    requires i < |acts| && acts[i].Done? && Cancels(acts[i].call)
    ensures After(acts[..i + 1], acts[i].call.e, v).prioAppl == 0
  {
    assert acts[..i + 1][..i] == acts[..i] && acts[..i + 1][i] == acts[i];
  }

  lemma NotifiedOnce(acts: seq<Act>, p: nat, views: map<Event, View>, i: nat, j: nat)
    requires Drains(acts, p, views) && i < j < |acts| && acts[i].Notify?
    ensures acts[i] != acts[j]
  {
    NotifiedLast(acts, p, views, i);
    if acts[j].Notify? {
      assert PlaceAt(acts, acts[j].n, views[acts[j].n], j) == p;
    }
  }

  /** The calls that move an event between queues or out of them: setting a timer or a signal is not
      one of them. */
  predicate Moves(c: Call) {
    !c.SetTimer? && !c.SetSignal? && !c.CancelSignal?
  }

  /** The queue that an event is in after the first so many acts. */
  function PlaceAt(acts: seq<Act>, e: Event, v: View, k: nat): nat
    requires k <= |acts|
  {
    After(acts[..k], e, v).prioAppl
  }

  ghost predicate WasIn(acts: seq<Act>, e: Event, v: View, p: nat) {
    exists k: nat :: k <= |acts| && PlaceAt(acts, e, v, k) == p
  }

  /** The act by which an event left a queue for the last time. */
  predicate LastDeparture(acts: seq<Act>, e: Event, v: View, p: nat, i: nat) {
    i < |acts| && PlaceAt(acts, e, v, i) == p && forall k: nat :: i < k <= |acts| ==> PlaceAt(acts, e, v, k) != p
  }

  /** A handler moved or cancelled the event. */
  predicate TakenOut(acts: seq<Act>, e: Event, i: nat) {
    i < |acts| && acts[i].Done? && acts[i].call.e == e && Moves(acts[i].call)
  }

  lemma {:induction false} DepartureExists(acts: seq<Act>, e: Event, v: View, p: nat, k: nat)
    requires k <= |acts| && PlaceAt(acts, e, v, k) == p && PlaceAt(acts, e, v, |acts|) != p
    ensures exists i: nat :: LastDeparture(acts, e, v, p, i)
    decreases |acts|
  {
    hide After;
    var n := |acts| - 1;
    forall j: nat | j <= n ensures PlaceAt(acts[..n], e, v, j) == PlaceAt(acts, e, v, j) {
      assert acts[..n][..j] == acts[..j];
    }
    if PlaceAt(acts, e, v, n) == p {
      assert LastDeparture(acts, e, v, p, n);
    } else {
      DepartureExists(acts[..n], e, v, p, k);
      var i: nat :| LastDeparture(acts[..n], e, v, p, i);
      assert LastDeparture(acts, e, v, p, i);
    }
  }

  /** Only its own notification, or a call that moves it, takes an event out of a queue. */
  lemma DepartureBy(acts: seq<Act>, e: Event, v: View, p: nat, i: nat)
    requires LastDeparture(acts, e, v, p, i)
    ensures acts[i] == Notify(e) || TakenOut(acts, e, i)
  {
    assert PlaceAt(acts, e, v, i + 1) != p;
    assert acts[..i + 1][..i] == acts[..i] && acts[..i + 1][i] == acts[i];
  }

  /** A notification is a last departure: whoever has been notified stays out. */
  lemma NotifiedLast(acts: seq<Act>, p: nat, views: map<Event, View>, j: nat)
    requires Drains(acts, p, views) && j < |acts| && acts[j].Notify?
    ensures LastDeparture(acts, acts[j].n, views[acts[j].n], p, j)
  {
    var e := acts[j].n;
    var v := views[e];
    assert acts[..j + 1][..j] == acts[..j];
    forall k: nat | j < k <= |acts| ensures PlaceAt(acts, e, v, k) == 0 {
      assert acts[..k] == acts[..j + 1] + acts[j + 1..k];
      AfterAppend(acts[..j + 1], acts[j + 1..k], e, v);
      StaysOut(acts[j + 1..k], e, After(acts[..j + 1], e, v));
    }
  }

  lemma DepartureUnique(acts: seq<Act>, e: Event, v: View, p: nat, i: nat, j: nat)
    requires LastDeparture(acts, e, v, p, i) && LastDeparture(acts, e, v, p, j)
    ensures i == j
  {
  }

  /** Whatever the handlers do: an event is notified exactly when its last departure from the drained
      queue is its notification; and one that was in that queue at any time, but is not notified,
      is one whose last departure was a handler's moving or cancelling it. */
  lemma NotifiedUnlessTaken(acts: seq<Act>, p: nat, views: map<Event, View>, e: Event)
    requires Drains(acts, p, views) && e in views && p != 0
    ensures Notify(e) in acts <==>
            exists i: nat :: LastDeparture(acts, e, views[e], p, i) && acts[i] == Notify(e)
    ensures Notify(e) !in acts && WasIn(acts, e, views[e], p) <==>
            exists i: nat :: LastDeparture(acts, e, views[e], p, i) && TakenOut(acts, e, i)
    ensures views[e].prioAppl == p ==> WasIn(acts, e, views[e], p)
  {
    hide After, LastDeparture;
    var v := views[e];
    assert acts[..|acts|] == acts;
    assert PlaceAt(acts, e, v, |acts|) != p by { NotInTheEnd(acts, p, views, e); }
    if Notify(e) in acts {
      var j: nat :| j < |acts| && acts[j] == Notify(e);
      NotifiedLast(acts, p, views, j);
      forall i: nat | LastDeparture(acts, e, v, p, i) ensures !TakenOut(acts, e, i) {
        DepartureUnique(acts, e, v, p, i, j);
      }
    } else if WasIn(acts, e, v, p) {
      var k: nat :| k <= |acts| && PlaceAt(acts, e, v, k) == p;
      DepartureExists(acts, e, v, p, k);
      var i: nat :| LastDeparture(acts, e, v, p, i);
      DepartureBy(acts, e, v, p, i);
      DepartureWithin(acts, e, v, p, i);
      assert acts[i] in acts;
    }
    forall i: nat | LastDeparture(acts, e, v, p, i) ensures i < |acts| && PlaceAt(acts, e, v, i) == p {
      DepartureWithin(acts, e, v, p, i);
    }
    assert PlaceAt(acts, e, v, 0) == v.prioAppl by { StartsAt(acts, e, v); }
  }

  lemma StartsAt(acts: seq<Act>, e: Event, v: View)
    ensures PlaceAt(acts, e, v, 0) == v.prioAppl
  {
    assert acts[..0] == [];
  }

  lemma NotInTheEnd(acts: seq<Act>, p: nat, views: map<Event, View>, e: Event)
    requires Drains(acts, p, views) && e in views && p != 0
    ensures PlaceAt(acts, e, views[e], |acts|) != p
  {
    hide After;
    assert acts[..|acts|] == acts;
  }

  lemma DepartureWithin(acts: seq<Act>, e: Event, v: View, p: nat, i: nat)
    requires LastDeparture(acts, e, v, p, i)
    ensures i < |acts| && PlaceAt(acts, e, v, i) == p
  {
  }

  predicate LeftAlone(acts: seq<Act>, e: Event) {
    forall i :: 0 <= i < |acts| && acts[i].Done? && Subject(acts[i]) == e ==> !Moves(acts[i].call)
  }

  lemma {:induction false} KeepsPlace(acts: seq<Act>, e: Event, v: View)
    requires LeftAlone(acts, e)
    ensures After(acts, e, v).prioAppl == if Notify(e) in acts then 0 else v.prioAppl
  {
    if acts == [] {
    } else {
      var n := |acts| - 1;
      KeepsPlace(acts[..n], e, v);
      assert acts == acts[..n] + [acts[n]];
    }
  }

  /** An event that no handler moves is notified exactly when it was in the drained queue, even if
      its timer or its signal is set again meanwhile; otherwise it keeps its place. */
  lemma NotifiedExactly(acts: seq<Act>, p: nat, views: map<Event, View>, e: Event)
    requires Drains(acts, p, views) && e in views && LeftAlone(acts, e)
    ensures Notify(e) in acts <==> p != 0 && views[e].prioAppl == p
    ensures Notify(e) !in acts ==> After(acts, e, views[e]).prioAppl == views[e].prioAppl
  {
    KeepsPlace(acts, e, views[e]);
    if Notify(e) in acts {
      var i :| 0 <= i < |acts| && acts[i] == Notify(e);
      forall k | 0 <= k < |acts[..i]| && acts[..i][k].Done? && Subject(acts[..i][k]) == e
        ensures !Moves(acts[..i][k].call)
      {
        assert acts[..i][k] == acts[k];
      }
      KeepsPlace(acts[..i], e, views[e]);
    }
  }
}
