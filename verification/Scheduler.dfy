// The event scheduler (scheduling.cc, with events.cc, timed.cc, idle.cc, signaling.cc and
// descriptor.cc): the tables that say which events are queued, timed, idle or waiting for a signal,
// and the fields of the events that say the same.
module Scheduling {
  import opened Basics
  import opened Events
  import opened EventTables

  class Scheduler {
    var queues: map<nat, set<Event>>
    var table: map<nat, set<Event>>
    var idleness: set<Event>
    var handlers: map<int, set<Event>>
    var watching: set<int>
    ghost var events: set<Event>

    ghost function Applied(): map<Event, nat>
      reads this`events, events`prioAppl
    {
      map e | e in events && e.prioAppl != 0 :: e.prioAppl
    }

    ghost function Times(): map<Event, nat>
      reads this`events, events`isSet, events`when
    {
      map e | e in events && e.isSet :: e.when
    }

    ghost function Signos(): map<Event, int>
      reads this`events, events`signo
    {
      map e | e in events && e.signo != 0 :: e.signo
    }

    twostate lemma AppliedChange(e: Event)
      requires events == old(events) && e in events
      requires forall f :: f in events && f != e ==> f.prioAppl == old(f.prioAppl)
      ensures Applied() == if e.prioAppl != 0 then old(Applied())[e := e.prioAppl] else old(Applied()) - {e}
      ensures e in Applied() <==> e.prioAppl != 0
      ensures e.prioAppl != 0 ==> Applied()[e] == e.prioAppl
    {
    }

    twostate lemma TimesChange(e: Event)
      requires events == old(events) && e in events
      requires forall f :: f in events && f != e ==> f.isSet == old(f.isSet) && f.when == old(f.when)
      ensures Times() == if e.isSet then old(Times())[e := e.when] else old(Times()) - {e}
      ensures e in Times() <==> e.isSet
      ensures e.isSet ==> Times()[e] == e.when
    {
    }

    twostate lemma SignosChange(e: Event)
      requires events == old(events) && e in events
      requires forall f :: f in events && f != e ==> f.signo == old(f.signo)
      ensures Signos() == if e.signo != 0 then old(Signos())[e := e.signo] else old(Signos()) - {e}
      ensures e in Signos() <==> e.signo != 0
      ensures e.signo != 0 ==> Signos()[e] == e.signo
    {
    }

    /** An event is in the queue of priority `p` exactly when `p` is its applied priority. */
    ghost predicate Queued()
      reads this`queues, this`events, events`prioUsr, events`prioAppl
    {
      Indexed(queues, Applied()) && forall e :: e in events ==> e.prioUsr != 0
    }

    /** An event is in the timer table exactly when it is set, and then only at its own time. */
    ghost predicate Timers()
      reads this`table, this`events, events`isSet, events`when
    {
      Indexed(table, Times()) && forall e :: e in events && e.isSet ==> e.kind == Timed
    }

    /** An event is in the signal table exactly under its own signal. */
    ghost predicate Signals()
      reads this`handlers, this`events, events`signo
    {
      Indexed(handlers, Signos()) && forall e :: e in events && e.signo != 0 ==> e.kind == Signal
    }

    ghost predicate Watched()
      reads this`handlers, this`watching
    {
      Watches(handlers, watching)
    }

    /** Every event is exactly where its fields say. */
    ghost predicate Tabled()
      reads this, events
    {
      && Queued() && Timers() && Signals()
      && idleness <= events && (forall e :: e in idleness ==> e.kind == Idle)
    }

    ghost predicate Valid()
      reads this, events
    {
      Tabled() && Watched()
    }

    function Look(e: Event): View
      reads this, e
    {
      View(e.prioUsr, e.prioAppl, e.when, e.isSet, e in idleness, e.signo, e.fd)
    }

    /** Every other event is as it was. */
    twostate predicate Others(e: Event)
      reads this, events
    {
      events == old(events) && forall f :: f in events && f != e ==> Look(f) == old(Look(f))
    }

    constructor ()
      ensures Valid() && events == {} && idleness == {} && table == map[] && queues == map[] && handlers == map[]
    {
      queues, table, idleness, handlers, watching, events := map[], map[], {}, map[], {}, {};
    }

    /** A new event belongs to the scheduler without being anywhere in it. */
    ghost method Adopt(e: Event)
      requires Valid() && e !in events && e.Pristine()
      modifies this`events
      ensures Valid() && events == old(events) + {e}
    {
      hide Indexed, Watches;
      events := events + {e};
      assert Applied() == old(Applied()) && Times() == old(Times()) && Signos() == old(Signos());
    }

    /** The queue that an event is in. */
    ghost predicate QueuedUnder(e: Event, p: nat)
      reads this`queues
    {
      forall q: nat :: q in queues && e in queues[q] <==> q == p && p != 0
    }

    /** The time under which an event is in the timer table, if any. */
    ghost predicate TimedUnder(e: Event, when: Option<nat>)
      reads this`table
    {
      forall t: nat :: t in table && e in table[t] <==> when == Some(t)
    }

    lemma QueueFound(e: Event)
      requires Queued() && e in events
      ensures QueuedUnder(e, e.prioAppl)
    {
      forall q: nat ensures q in queues && e in queues[q] <==> q == e.prioAppl && e.prioAppl != 0 {
        assert At(queues, q) == Under(Applied(), q);
        assert e in Under(Applied(), q) <==> e in Applied() && Applied()[e] == q;
      }
    }

    lemma TimerFound(e: Event)
      requires Timers() && e in events
      ensures TimedUnder(e, if e.isSet then Some(e.when) else None)
    {
      forall t: nat ensures t in table && e in table[t] <==> e.isSet && e.when == t {
        assert At(table, t) == Under(Times(), t);
        assert e in Under(Times(), t) <==> e in Times() && Times()[e] == t;
      }
    }

    // ---------- queues ----------

    method Enqueue(e: Event)
      requires Queued() && e in events
      modifies this`queues, e`prioAppl
      ensures Queued() && Others(e) && Look(e) == Waiting(old(Look(e)))
      ensures e.prioAppl == if old(e.prioAppl) != 0 then old(e.prioAppl) else e.prioUsr
      ensures QueuedUnder(e, e.prioAppl)
    {
      hide Indexed, At, Put, Take, Applied, Times, Signos;
      AppliedChange(e);
      if e.prioAppl != 0 {
        QueueFound(e);
        return;
      }
      var p := e.prioUsr;
      PutIndexed(queues, Applied(), p, e);
      queues := Put(queues, p, e);
      e.prioAppl := p;
      AppliedChange(e);
      QueueFound(e);
    }

    method Dequeue(e: Event)
      requires Queued() && e in events
      modifies this`queues, e`prioAppl
      ensures Queued() && Others(e) && Look(e) == old(Look(e)).(prioAppl := 0)
      ensures QueuedUnder(e, 0)
    {
      hide Indexed, At, Put, Take, Applied, Times, Signos;
      AppliedChange(e);
      if e.prioAppl != 0 {
        TakeIndexed(queues, Applied(), e);
        queues := Take(queues, e.prioAppl, e);
        e.prioAppl := 0;
        AppliedChange(e);
      }
      QueueFound(e);
    }

    /** A queued event moves at once. */
    method Prio(e: Event, p: nat) returns (thrown: bool)
      requires Valid() && e in events
      modifies this`queues, e`prioAppl, e`prioUsr
      ensures Valid() && Others(e) && Look(e) == Called(SetPrio(e, p), old(Look(e)))
      ensures thrown <==> p == 0
      ensures e.prioUsr == (if p != 0 then p else old(e.prioUsr))
      ensures e.prioAppl == (if p != 0 && old(e.prioAppl) != 0 then p else old(e.prioAppl))
      ensures QueuedUnder(e, e.prioAppl)
    {
      hide Indexed, At, Put, Take, Applied, Times, Signos, Timers, Signals, Watched;
      AppliedChange(e);
      if p == 0 {
        QueueFound(e);
        return true;
      }
      if e.prioAppl != 0 && e.prioAppl != p {
        TakeIndexed(queues, Applied(), e);
        queues := Take(queues, e.prioAppl, e);
        e.prioAppl := p;
        PutIndexed(queues, old(Applied()) - {e}, p, e);
        queues := Put(queues, p, e);
        AppliedChange(e);
        assert (old(Applied()) - {e})[e := p] == old(Applied())[e := p];
      }
      e.prioUsr := p;
      QueueFound(e);
      thrown := false;
    }

    // ---------- timers ----------

    method TimedSet(e: Event, when: nat)
      requires Valid() && e in events && e.kind == Timed
      modifies this`table, e`when, e`isSet
      ensures Valid() && Others(e) && Look(e) == Called(SetTimer(e, when), old(Look(e)))
      ensures e.isSet && e.when == when && TimedUnder(e, Some(when)) && e.prioAppl == old(e.prioAppl)
      ensures table != map[]
    {
      hide Indexed, At, Put, Take, Applied, Times, Signos, Queued, Signals, Watched;
      TimesChange(e);
      assert !e.isSet ==> Times() - {e} == Times();
      if e.isSet {
        if e.when == when {
          BucketTimed();
          TimerFound(e);
          return;
        }
        TakeIndexed(table, Times(), e);
        table := Take(table, e.when, e);
      }
      e.when := when;
      e.isSet := true;
      PutIndexed(table, old(Times()) - {e}, when, e);
      SameKeys(table, when, e);
      table := Put(table, e.when, e);
      TimesChange(e);
      assert (old(Times()) - {e})[e := when] == old(Times())[e := when];
      TimerFound(e);
    }

    method TimedCancel(e: Event)
      requires Valid() && e in events && e.kind == Timed
      modifies this`table, this`queues, e`isSet, e`prioAppl
      ensures Valid() && Others(e) && Look(e) == Called(CancelTimer(e), old(Look(e)))
      ensures !e.isSet && e.prioAppl == 0 && QueuedUnder(e, 0) && TimedUnder(e, None)
      ensures table.Keys == old(table.Keys)
    {
      hide Indexed, At, Put, Take, Applied, Times, Signos, Queued, Signals, Watched;
      TimesChange(e);
      Dequeue(e);
      if !e.isSet {
        TimerFound(e);
        return;
      }
      BucketTimed();
      TakeIndexed(table, Times(), e);
      SameKeys(table, e.when, e);
      table := Take(table, e.when, e);
      e.isSet := false;
      TimesChange(e);
      TimerFound(e);
    }

    // ---------- idle events ----------

    method IdleSet(e: Event)
      requires Valid() && e in events && e.kind == Idle
      modifies this`idleness, this`queues, e`prioAppl
      ensures Valid() && Others(e) && Look(e) == Called(SetIdle(e), old(Look(e)))
      ensures e in idleness && e.prioAppl == 0 && QueuedUnder(e, 0)
    {
      hide Queued, Timers, Signals, Watched;
      idleness := idleness + {e};
      Dequeue(e);
    }

    method IdleCancel(e: Event)
      requires Valid() && e in events && e.kind == Idle
      modifies this`idleness, this`queues, e`prioAppl
      ensures Valid() && Others(e) && Look(e) == Called(CancelIdle(e), old(Look(e)))
      ensures e !in idleness && e.prioAppl == 0 && QueuedUnder(e, 0)
    {
      hide Queued, Timers, Signals, Watched;
      idleness := idleness - {e};
      Dequeue(e);
    }

    // ---------- descriptors ----------

    method DescriptorSet(e: Event, fd: int) returns (thrown: bool)
      requires Valid() && e in events && e.kind == Descriptor
      modifies this`queues, e`fd, e`prioAppl
      ensures Valid() && Others(e) && Look(e) == Called(Watch(e, fd), old(Look(e)))
      ensures thrown <==> fd < 0
      ensures !thrown ==> e.fd == fd && e.prioAppl == 0 && QueuedUnder(e, 0)
      ensures thrown ==> e.fd == old(e.fd) && e.prioAppl == old(e.prioAppl)
    {
      hide Queued, Timers, Signals, Watched;
      if fd < 0 { return true; }
      e.fd := fd;
      Dequeue(e);
      thrown := false;
    }

    method DescriptorCancel(e: Event)
      requires Valid() && e in events && e.kind == Descriptor
      modifies this`queues, e`fd, e`prioAppl
      ensures Valid() && Others(e) && Look(e) == Called(Unwatch(e), old(Look(e)))
      ensures e.fd == -1 && e.prioAppl == 0 && QueuedUnder(e, 0)
    {
      hide Queued, Timers, Signals, Watched;
      e.fd := -1;
      Dequeue(e);
    }

    // ---------- signals ----------

    /** Brings the watched set into step with one bucket, unless the system refuses; a number that no
        signal set can hold is refused even when there is nothing to change. */
    method UpdateSignal(signo: int, fails: bool) returns (thrown: bool)
      modifies this`handlers, this`watching
      ensures var state := At(old(handlers), signo) != {};
              && handlers == Trim(old(handlers), signo)
              && (thrown <==> !(1 <= signo <= 64) || ((signo in old(watching)) != state && fails))
              && watching == (if thrown then old(watching)
                              else if state then old(watching) + {signo} else old(watching) - {signo})
    {
      var state := signo in handlers && handlers[signo] != {};
      if !state { handlers := handlers - {signo}; }
      if Known(signo) && (signo in watching) == state { return false; }
      if !Known(signo) || fails { return true; }
      watching := if state then watching + {signo} else watching - {signo};
      thrown := false;
    }

    /** Takes an event out of its bucket.  While the watched set is in step, only the system can refuse
        to stop watching, and only when the last handler of a signal goes. */
    method Reset(e: Event, fails: bool) returns (thrown: bool)
      requires e.signo != 0 && Indexed(handlers, Signos()) && e in Signos() && Signos()[e] == e.signo
      modifies this`handlers, this`watching
      ensures Indexed(handlers, Signos() - {e})
      ensures !Known(e.signo) ==> thrown
      ensures old(Watched()) ==> (Watched() <==> !thrown)
      ensures old(Watched()) ==> (thrown <==> fails && At(old(handlers), e.signo) == {e})
      ensures forall s :: s != e.signo ==> At(handlers, s) == At(old(handlers), s)
      ensures e !in At(handlers, e.signo)
    {
      hide Indexed, Watches, Signos, Trim;
      var s := e.signo;
      BucketOf(handlers, Signos(), e);
      if Watched() {
        WatchedAt(handlers, watching, s);
        WatchStep(handlers, watching, Take(handlers, s, e), s);
      }
      TakeIndexed(handlers, Signos(), e);
      TrimIndexed(Take(handlers, s, e), Signos() - {e}, s);
      TrimAt(Take(handlers, s, e), s);
      handlers := Take(handlers, s, e);
      thrown := UpdateSignal(s, fails);
    }

    /** From tables that agree, they agree afterwards exactly when nothing was thrown.  An event that
        was left on a number that is no signal's throws again. */
    method SignalCancel(e: Event, fails: bool) returns (thrown: bool)
      requires Tabled() && e in events && e.kind == Signal
      modifies this`handlers, this`watching, e`signo
      ensures old(e.signo) != 0 && !Known(old(e.signo)) ==> thrown
      ensures old(Valid()) ==> (thrown <==> fails && old(e.signo) != 0 && At(old(handlers), old(e.signo)) == {e})
      ensures old(Valid()) ==> (Valid() <==> !thrown)
      ensures Tabled() <==> !thrown
      ensures Others(e) && Look(e) == if thrown then old(Look(e)) else Called(CancelSignal(e), old(Look(e)))
      ensures e.signo == (if thrown then old(e.signo) else 0) && e.prioAppl == old(e.prioAppl)
    {
      hide At, Applied, Times, Watches, Timers, Queued, Known, Signals, Signos;
      if e.signo == 0 { return false; }
      SignalsAt(e);
      thrown := Reset(e, fails);
      if thrown {
        if Signals() { SignalsAt(e); }
        return;
      }
      e.signo := 0;
      SignosChange(e);
      SignalsAgain(e);
    }

    lemma SignalsAt(e: Event)
      requires Signals() && e in events && e.signo != 0
      ensures Indexed(handlers, Signos()) && e in Signos() && Signos()[e] == e.signo && e in At(handlers, e.signo)
    {
      assert At(handlers, e.signo) == Under(Signos(), e.signo);
    }

    twostate lemma SignalsAgain(e: Event)
      requires old(Signals()) && events == old(events) && e in events && (e.signo != 0 ==> e.kind == Signal)
      requires forall f :: f in events && f != e ==> f.signo == old(f.signo)
      requires Indexed(handlers, Signos())
      ensures Signals()
    {
    }

    /** The tables agree afterwards exactly when nothing was thrown. */
    method SignalSet(e: Event, signo: int, failsOld: bool, failsNew: bool) returns (thrown: bool)
      requires Valid() && e in events && e.kind == Signal
      modifies this`handlers, this`watching, e`signo
      ensures Valid() <==> !thrown
      ensures thrown <==> old(e.signo) != signo &&
                          ((old(e.signo) != 0 && failsOld && At(old(handlers), old(e.signo)) == {e}) ||
                           (signo != 0 && At(old(handlers), signo) == {} && (!Known(signo) || failsNew)))
      ensures thrown && old(e.signo) == 0 ==> Tabled() && e.signo == signo
      ensures Others(e) && (!thrown ==> Look(e) == Called(SetSignal(e, signo), old(Look(e))))
      ensures (!thrown ==> e.signo == signo) && e.prioAppl == old(e.prioAppl)
    {
      hide Indexed, At, Applied, Times, Signos, Watches, Known, Timers, Queued;
      if signo == 0 {
        thrown := SignalCancel(e, failsOld);
        if thrown { return; }
      }
      if e.signo == signo { return false; }
      SignosChange(e);
      assert e.signo == 0 ==> Signos() - {e} == Signos();
      if e.signo != 0 {
        thrown := Reset(e, failsOld);
        if thrown { return; }
      }
      thrown := EnterSignal(e, signo, failsNew);
    }

    /** Enters an event that is in no bucket. */
    method EnterSignal(e: Event, signo: int, fails: bool) returns (thrown: bool)
      requires signo != 0 && e in events && Watched() && Indexed(handlers, Signos() - {e})
      requires forall f :: f in events && (f == e || f.signo != 0) ==> f.kind == Signal
      modifies this`handlers, this`watching, e`signo
      ensures e.signo == signo && Signals() && (Watched() <==> !thrown)
      ensures thrown <==> At(old(handlers), signo) == {} && (!Known(signo) || fails)
    {
      hide Indexed, At, Put, Trim, Signos, Watches;
      PutIndexed(handlers, Signos() - {e}, signo, e);
      PutAt(handlers, signo, e);
      WatchStep(handlers, watching, Put(handlers, signo, e), signo);
      TrimIndexed(Put(handlers, signo, e), (Signos() - {e})[e := signo], signo);
      handlers := Put(handlers, signo, e);
      e.signo := signo;
      SignosChange(e);
      assert (old(Signos()) - {e})[e := signo] == old(Signos())[e := signo];
      thrown := UpdateSignal(signo, fails);
    }

    // ---------- runs of calls ----------

    method Do(c: Call)
      requires Valid() && c.e in events && Proper(c)
      modifies this`queues, this`table, this`idleness, this`handlers, this`watching, c.e
      ensures Valid() && Others(c.e) && Look(c.e) == Called(c, old(Look(c.e)))
    {
      match c
      case SetTimer(e, when) => TimedSet(e, when);
      case CancelTimer(e) => TimedCancel(e);
      case SetIdle(e) => IdleSet(e);
      case CancelIdle(e) => IdleCancel(e);
      case SetSignal(e, signo) => var thrown := SignalSet(e, signo, false, false);
      case CancelSignal(e) => var thrown := SignalCancel(e, false);
      case SetPrio(e, p) => var thrown := Prio(e, p);
      case Watch(e, fd) => var thrown := DescriptorSet(e, fd);
      case Unwatch(e) => DescriptorCancel(e);
    }

    /** A handler: any calls on any events. */
    method RunAll(calls: seq<Call>)
      requires Valid() && forall c :: c in calls ==> c.e in events && Proper(c)
      modifies this`queues, this`table, this`idleness, this`handlers, this`watching, events
      ensures Valid() && events == old(events)
      ensures forall e :: e in events ==> Look(e) == After(Dones(calls), e, old(Look(e)))
    {
      hide Valid, Called, Proper;
      var i := 0;
      assert calls[..0] == [];
      while i < |calls|
        invariant Valid() && events == old(events) && i <= |calls|
        invariant forall e :: e in events ==> Look(e) == After(Dones(calls[..i]), e, old(Look(e)))
      {
        assert calls[..i + 1][..i] == calls[..i];
        assert calls[i] in calls;
        Do(calls[i]);
        i := i + 1;
      }
      assert calls[..i] == calls;
    }

    // ---------- gathering ----------

    /** Everything that is known of every event. */
    ghost function Views(): map<Event, View>
      reads this, events
    {
      map e | e in events :: Look(e)
    }

    twostate lemma Silenced(signo: int)
      requires events == old(events) && old(Signals()) && handlers == old(handlers) - {signo}
      requires forall e :: e in events ==>
        Look(e).signo == if old(Look(e)).signo == signo then 0 else old(Look(e)).signo
      ensures Signals()
    {
      hide Indexed;
      assert forall e :: e in events ==> e.signo == Look(e).signo && old(e.signo) == old(Look(e)).signo;
      assert Signos() == Except(old(Signos()), signo);
      WithoutIndexed(old(handlers), old(Signos()), signo);
    }

    /** The handlers of one signal are queued. */
    method RaiseBucket(bucket: set<Event>)
      requires Queued() && Timers() && bucket <= events
      modifies this`queues, events`signo, events`prioAppl
      ensures Queued() && Timers() && events == old(events)
      ensures forall e :: e in events ==>
        Look(e) == if e in bucket then Waiting(old(Look(e)).(signo := 0)) else old(Look(e))
    {
      hide Indexed, Queued, Timers, Waiting, Applied;
      var todo := bucket;
      while todo != {}
        invariant Queued() && Timers() && events == old(events) && todo <= bucket
        invariant forall e :: e in events && e in bucket - todo ==> Look(e) == Waiting(old(Look(e)).(signo := 0))
        invariant forall e :: e in events && e !in bucket - todo ==> Look(e) == old(Look(e))
        decreases |todo|
      {
        var e :| e in todo;
        e.signo := 0;
        Enqueue(e);
        todo := todo - {e};
      }
    }

    /** The handlers of a signal are queued and lose the signal, which is no longer watched. */
    method RaiseSignal(signo: int, fails: bool) returns (thrown: bool)
      requires Valid()
      modifies this`queues, this`handlers, this`watching, events`signo, events`prioAppl
      ensures thrown <==> fails && At(old(handlers), signo) != {}
      ensures Valid() <==> !thrown
      ensures events == old(events)
      ensures forall e :: e in events ==>
        Look(e) == if signo != 0 && old(e.signo) == signo then Waiting(old(Look(e)).(signo := 0)) else old(Look(e))
    {
      hide Indexed, Queued, Timers, Watches, Known, Applied, Times;
      BucketMembers(signo);
      WatchedAt(handlers, watching, signo);
      if signo !in handlers { return false; }
      RaiseBucket(handlers[signo]);
      assert handlers - {signo} - {signo} == handlers - {signo};
      WatchStep(handlers, watching, handlers - {signo}, signo);
      handlers := handlers - {signo};
      Silenced(signo);
      thrown := UpdateSignal(signo, fails);
    }

    lemma BucketMembers(signo: int)
      requires Valid()
      ensures At(handlers, signo) <= events
      ensures forall e :: e in events ==> (e in At(handlers, signo) <==> signo != 0 && e.signo == signo)
    {
      assert At(handlers, signo) == Under(Signos(), signo);
    }

    lemma BucketTimed()
      requires Timers()
      ensures forall e :: e in events && e.isSet ==> e.when in table
      ensures forall t :: t in table ==> table[t] <= events
      ensures forall t, e :: t in table && e in events ==> (e in table[t] <==> e.isSet && e.when == t)
    {
      forall t | t in table
        ensures table[t] <= events && forall e :: e in events ==> (e in table[t] <==> e.isSet && e.when == t)
      {
        assert table[t] == At(table, t) == Under(Times(), t);
      }
      forall e | e in events && e.isSet ensures e.when in table {
        assert At(table, e.when) == Under(Times(), e.when);
        assert e in Under(Times(), e.when);
      }
    }

    twostate lemma Lapsed(now: nat)
      requires events == old(events) && old(Timers()) && table == Later(old(table), now)
      requires forall e :: e in events ==>
        Look(e).when == old(Look(e)).when && (Look(e).isSet <==> old(Look(e)).isSet && old(Look(e)).when > now)
      ensures Timers()
    {
      hide Indexed;
      assert forall e :: e in events ==> e.isSet == Look(e).isSet && e.when == Look(e).when;
      assert forall e :: e in events ==> old(e.isSet) == old(Look(e)).isSet && old(e.when) == old(Look(e)).when;
      assert Times() == Beyond(old(Times()), now);
      LaterIndexed(old(table), old(Times()), now);
    }

    /** Every timer that is due is queued, and no other is touched. */
    method CollectTimers(now: nat)
      requires Valid()
      modifies this`queues, this`table, events`isSet, events`prioAppl
      ensures Valid() && events == old(events) && table == Later(old(table), now)
      ensures forall e :: e in events ==> Look(e) == Expired(old(Look(e)), now)
    {
      hide Indexed, Queued, Signals, Watched, Applied, Times;
      BucketTimed();
      var due := set t | t in table && t <= now;
      var todo := due;
      while todo != {}
        invariant Queued() && Signals() && events == old(events) && table == old(table) && todo <= due
        invariant forall e :: e in events ==> e.when == old(e.when)
        invariant forall e :: e in events && e.when !in todo ==> Look(e) == Expired(old(Look(e)), now)
        invariant forall e :: e in events && e.when in todo ==> Look(e) == old(Look(e))
        decreases |todo|
      {
        var t :| t in todo;
        ExpireBucket(t, now);
        todo := todo - {t};
      }
      table := Later(table, now);
      Lapsed(now);
    }

    /** One bucket of the timer table is queued. */
    method ExpireBucket(t: nat, now: nat)
      requires Queued() && Signals() && t in table && t <= now && table[t] <= events
      requires forall e :: e in events ==> (e in table[t] <==> e.isSet && e.when == t)
      modifies this`queues, events`isSet, events`prioAppl
      ensures Queued() && Signals() && events == old(events)
      ensures forall e :: e in events ==> Look(e) == if e.when == t then Expired(old(Look(e)), now) else old(Look(e))
    {
      hide Indexed, Queued, Signals, Waiting, Applied;
      var bucket := table[t];
      while bucket != {}
        invariant Queued() && Signals() && events == old(events) && bucket <= table[t]
        invariant forall e :: e in events && e in table[t] - bucket ==> Look(e) == Expired(old(Look(e)), now)
        invariant forall e :: e in events && e !in table[t] - bucket ==> Look(e) == old(Look(e))
        decreases |bucket|
      {
        var e :| e in bucket;
        e.isSet := false;
        Enqueue(e);
        bucket := bucket - {e};
      }
    }

    /** Every idle event is queued. */
    method CollectIdle()
      requires Valid()
      modifies this`queues, this`idleness, events`prioAppl
      ensures Valid() && events == old(events) && idleness == {}
      ensures forall e :: e in events ==> Look(e) == Rested(old(Look(e)))
    {
      hide Indexed, Queued, Timers, Signals, Watched;
      var todo := idleness;
      while todo != {}
        invariant Queued() && Timers() && Signals() && events == old(events)
        invariant idleness == old(idleness) && todo <= idleness
        invariant forall e :: e in events && e in idleness - todo ==> Look(e) == Waiting(old(Look(e)))
        invariant forall e :: e in events && e !in idleness - todo ==> Look(e) == old(Look(e))
        decreases |todo|
      {
        var e :| e in todo;
        Enqueue(e);
        todo := todo - {e};
      }
      idleness := {};
    }

    // ---------- polling ----------

    /** Nothing is queued or idle. */
    ghost predicate Quiet()
      reads this`idleness, this`events, events`prioAppl
    {
      idleness == {} && forall e :: e in events ==> e.prioAppl == 0
    }

    ghost predicate NoTimer()
      reads this`events, events`isSet
    {
      forall e :: e in events ==> !e.isSet
    }

    /** Empty buckets at the front of the timer table go. */
    method DropEmpty() returns (first: Option<nat>)
      requires Timers()
      modifies this`table
      ensures Timers()
      ensures first == None <==> NoTimer()
      ensures first.Some? ==> exists e :: e in events && e.isSet && e.when == first.value
      ensures first.Some? ==> forall e :: e in events && e.isSet ==> first.value <= e.when
    {
      hide Indexed, Times;
      while table != map[]
        invariant Timers()
        decreases |table|
      {
        BucketTimed();
        var t: nat := Least(table.Keys);
        if table[t] != {} {
          var e :| e in table[t];
          assert e in events && e.isSet && e.when == t;
          return Some(t);
        }
        TrimIndexed(table, Times(), t);
        table := table - {t};
      }
      BucketTimed();
      first := None;
    }

    /** How long to wait, in milliseconds; there is no answer when nothing is queued or idle, no timer
        is set, and yet a bucket is left over from one that was. */
    method Timeout(now: nat) returns (r: Option<int>)
      requires Valid()
      modifies this`table
      ensures Valid()
      ensures r == None <==> Quiet() && NoTimer() && old(table) != map[]
      ensures r == Some(-1) <==> Quiet() && old(table) == map[]
      ensures !Quiet() ==> r == Some(0)
      ensures r.Some? && r.value != -1 ==> 0 <= r.value <= 0x7FFF_FFFF
      ensures r.Some? && r.value > 0 ==> forall e :: e in events && e.isSet ==> now + r.value * 1_000_000 <= e.when
      ensures r.Some? && Quiet() && 0 <= r.value < 0x7FFF_FFFF ==>
              exists e :: e in events && e.isSet && e.when < now + (r.value + 1) * 1_000_000
    {
      hide Indexed, Queued, Signals, Watched, Times;
      QueuedMembers();
      if exists p :: p in queues && queues[p] != {} { return Some(0); }
      if idleness != {} { return Some(0); }
      if table == map[] { return Some(-1); }
      var first := DropEmpty();
      if first == None { return None; }
      var delay := Milliseconds(first.value - now);
      r := Some(if delay < 0 then 0 else if delay > INT_MAX then INT_MAX else delay);
    }

    lemma QueuedMembers()
      requires Valid()
      ensures forall p :: p in queues ==> queues[p] <= events
      ensures forall p, e :: p in queues && e in events ==> (e in queues[p] <==> p != 0 && e.prioAppl == p)
      ensures forall e :: e in events && e.prioAppl != 0 ==> e.prioAppl in queues
    {
      forall p | p in queues
        ensures queues[p] <= events && forall e :: e in events ==> (e in queues[p] <==> p != 0 && e.prioAppl == p)
      {
        assert queues[p] == At(queues, p) == Under(Applied(), p);
      }
      forall e | e in events && e.prioAppl != 0 ensures e.prioAppl in queues {
        assert At(queues, e.prioAppl) == Under(Applied(), e.prioAppl);
        assert e in Under(Applied(), e.prioAppl);
      }
    }

    // ---------- draining ----------

    /** The events that are queued. */
    ghost function Waiters(): set<Event>
      reads this`events, events`prioAppl
    {
      set e | e in events && e.prioAppl != 0
    }

    /** One notification: the event leaves its queue, and its handler makes what calls it likes. */
    method NotifyOne(e: Event, calls: seq<Call>) returns (acts: seq<Act>)
      requires Valid() && e in events && e.prioAppl != 0
      requires forall c :: c in calls ==> c.e in events && Proper(c)
      modifies this`queues, this`table, this`idleness, this`handlers, this`watching, events
      ensures Valid() && events == old(events) && acts == [Notify(e)] + Dones(calls)
      ensures forall f :: f in events ==> Look(f) == After(acts, f, old(Look(f)))
      ensures Waiters() < old(Waiters())
    {
      hide Indexed, Watches, Applied, Times, Signos, Proper, Waiting, Dones;
      Dequeue(e);
      assert forall f :: f in events ==> Look(f) == After([Notify(e)], f, old(Look(f)));
      label Called:
      RunAll(calls);
      acts := [Notify(e)] + Dones(calls);
      forall f | f in events ensures Look(f) == After(acts, f, old(Look(f))) {
        AfterAppend([Notify(e)], Dones(calls), f, old(Look(f)));
      }
      forall f | f in events && old@Called(Look(f)).prioAppl == 0 ensures Look(f).prioAppl == 0 {
        StaysOut(Dones(calls), f, old@Called(Look(f)));
      }
      assert e in old(Waiters()) && e !in Waiters();
      assert forall f :: f in Waiters() ==> Look(f).prioAppl != 0;
    }

    /** Scripts for as many notifications as there may be: whatever the handlers do. */
    ghost predicate Scripted(scripts: seq<seq<Call>>)
      reads this`events
    {
      forall i, c :: 0 <= i < |scripts| && c in scripts[i] ==> c.e in events && Proper(c)
    }

    lemma QueueOf(p: nat)
      requires Valid() && p != 0
      ensures p in queues ==> forall e :: e in queues[p] ==> e in events && Look(e).prioAppl == p && e.prioAppl != 0
      ensures p !in queues || queues[p] == {} ==> forall e :: e in events ==> Look(e).prioAppl != p
    {
      QueuedMembers();
    }

    /** The first priority whose queue is not empty. */
    method FirstQueue() returns (p: nat)
      requires Valid()
      ensures forall e :: e in events && Look(e).prioAppl != 0 ==> 0 < p <= Look(e).prioAppl
      ensures p != 0 ==> p in queues && exists e :: e in events && Look(e).prioAppl == p
    {
      QueuedMembers();
      hide Valid;
      var busy := set q | q in queues && queues[q] != {};
      forall e | e in events && Look(e).prioAppl != 0 ensures Look(e).prioAppl in busy {
        assert e in queues[e.prioAppl];
      }
      if busy == {} { return 0; }
      p := Least(busy);
      var some :| some in queues[p];
      assert Look(some).prioAppl == p;
    }

    /** Notifies the events of the first non-empty queue until it is empty; their handlers may set,
        cancel or move any event meanwhile, and yet this comes to an end. */
    method Drain(scripts: seq<seq<Call>>) returns (acts: seq<Act>, p: nat)
      requires Valid() && Scripted(scripts)
      modifies this`queues, this`table, this`idleness, this`handlers, this`watching, events
      ensures Valid() && events == old(events)
      ensures forall e :: e in events ==> Look(e) == After(acts, e, old(Look(e)))
      ensures Drains(acts, p, old(Views()))
    {
      hide Valid, Look, Proper, Drains, After, ActsAt;
      acts := [];
      p := FirstQueue();
      ghost var views := Views();
      NothingDone(views);
      if p == 0 {
        DrainsSo(acts, p, views);
        return;
      }
      ghost var some :| some in events && Look(some).prioAppl == p;
      assert some in views && views[some].prioAppl == p;
      var k := 0;
      while p in queues && queues[p] != {}
        invariant Valid() && events == old(events) && k <= |scripts|
        invariant forall e :: e in events ==> Look(e) == After(acts, e, old(Look(e)))
        invariant ActsAt(acts, p, views)
        decreases Waiters()
      {
        QueueOf(p);
        var e :| e in queues[p];
        var calls := if k < |scripts| then scripts[k] else [];
        label Before:
        var more := NotifyOne(e, calls);
        ActsOn(acts, more, calls, e, p, views);
        forall f | f in events ensures Look(f) == After(acts + more, f, old(Look(f))) {
          AfterAppend(acts, more, f, old(Look(f)));
        }
        acts := acts + more;
        if k < |scripts| { k := k + 1; }
      }
      QueueOf(p);
      forall e | e in views ensures After(acts, e, views[e]).prioAppl != p {
        assert Look(e).prioAppl != p;
      }
      DrainsSo(acts, p, views);
    }

    /** Waits, gathers whatever has happened, and notifies the events of the first priority.  When
        there is no answer to how long to wait, what follows is undefined; when a signal interrupts
        the wait, nothing happens. */
    method Poll(before: nat, woken: Option<seq<Report>>, now: nat, scripts: seq<seq<Call>>)
      returns (defined: bool, acts: seq<Act>, p: nat)
      requires Valid() && Scripted(scripts)
      requires woken.Some? ==> forall r :: r in woken.value && r.Reported? ==> r.d in events
      modifies this`queues, this`table, this`idleness, this`handlers, this`watching, events
      ensures Valid() && events == old(events)
      ensures defined <==> !(old(Quiet()) && old(NoTimer()) && old(table) != map[])
      ensures !defined || woken == None ==>
              acts == [] && forall e :: e in events ==> Look(e) == old(Look(e))
      ensures defined && woken.Some? ==>
              && (forall e :: e in events ==> Look(e) == After(acts, e, Gathered(woken.value, now, e, old(Look(e)))))
              && Drains(acts, p, GatheredAll(woken.value, now, old(Views())))
    {
      hide Valid, Quiet, NoTimer, Proper, After, Drains, Raised, Waiting, Expired, Rested, Told;
      acts, p := [], 0;
      var wait := Timeout(before);
      defined := wait.Some?;
      assert forall e :: e in events ==> Look(e) == old(Look(e));
      if !defined || woken == None {
        return;
      }
      Gather(woken.value);
      CollectTimers(now);
      CollectIdle();
      assert Views() == GatheredAll(woken.value, now, old(Views()));
      acts, p := Drain(scripts);
    }

    /** Queues what the wait was woken for. */
    method Gather(reports: seq<Report>)
      requires Valid() && forall r :: r in reports && r.Reported? ==> r.d in events
      modifies this`queues, this`handlers, this`watching, events`signo, events`prioAppl
      ensures Valid() && events == old(events)
      ensures forall e :: e in events ==> Look(e) == Told(reports, e, old(Look(e)))
    {
      hide Indexed, Queued, Timers, Signals, Watched, Waiting, Raised;
      var i := 0;
      assert reports[..0] == [];
      while i < |reports|
        invariant Valid() && events == old(events) && i <= |reports|
        invariant forall e :: e in events ==> Look(e) == Told(reports[..i], e, old(Look(e)))
      {
        assert reports[..i + 1][..i] == reports[..i];
        if reports[i].Signalled? {
          ReadSignals(reports[i].signos);
        } else {
          assert reports[i] in reports;
          Enqueue(reports[i].d);
        }
        i := i + 1;
      }
      assert reports[..i] == reports;
    }

    /** Reads the signals that have come, one at a time. */
    method ReadSignals(signos: seq<int>)
      requires Valid()
      modifies this`queues, this`handlers, this`watching, events`signo, events`prioAppl
      ensures Valid() && events == old(events)
      ensures forall e :: e in events ==> Look(e) == Raised(signos, old(Look(e)))
    {
      hide Valid, Waiting;
      var i := 0;
      assert signos[..0] == [];
      while i < |signos|
        invariant Valid() && events == old(events) && i <= |signos|
        invariant forall e :: e in events ==> Look(e) == Raised(signos[..i], old(Look(e)))
      {
        assert signos[..i + 1][..i] == signos[..i];
        var thrown := RaiseSignal(signos[i], false);
        i := i + 1;
      }
      assert signos[..i] == signos;
    }
  }

  /** An event that was set for a number outside the signal set stays there: cancelling it throws. */
  method BadSignal(signo: int) returns (first: bool, again: bool)
    requires signo != 0 && !Known(signo)
    ensures first && again
  {
    hide Scheduler.Valid, Scheduler.Queued, Scheduler.Timers, Scheduler.Signals, Scheduler.Watched, Scheduler.Tabled;
    var s := new Scheduler();
    var e := new Event(Signal);
    s.Adopt(e);
    first := s.SignalSet(e, signo, false, false);
    again := s.SignalCancel(e, false);
  }

  /** One timer that is set and cancelled again leaves the next poll without an answer. */
  method CancelledTimer(when: nat, now: nat) returns (r: Option<int>)
    ensures r == None
  {
    hide Scheduler.Valid, Scheduler.Queued, Scheduler.Timers, Scheduler.Signals, Scheduler.Watched;
    var s := new Scheduler();
    var e := new Event(Timed);
    s.Adopt(e);
    s.TimedSet(e, when);
    s.TimedCancel(e);
    assert e.prioAppl == s.Look(e).prioAppl && e.isSet == s.Look(e).isSet;
    r := s.Timeout(now);
  }

  const INT_MAX := 0x7FFF_FFFF

  /** In the clock's nanoseconds. */
  const MILLISECOND := 1_000_000

  /** Towards zero, as the conversion of durations goes. */
  function Milliseconds(d: int): (ms: int)
    ensures d >= 0 ==> ms * 1_000_000 <= d < (ms + 1) * 1_000_000
    ensures d < 0 ==> (ms - 1) * 1_000_000 < d <= ms * 1_000_000 <= 0
  {
    if d >= 0 then d / MILLISECOND else -(-d / MILLISECOND)
  }
}
