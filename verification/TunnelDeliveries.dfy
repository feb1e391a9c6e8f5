// From the sending end to the destinations (tcp_ingress.cc and tcp_egress.cc): what the connections
// of a whole run send on.
module TunnelDeliveries {
  import opened Basics
  import opened Wire
  import opened Egress
  import opened EgressObjects
  import opened Destinations
  import opened FanOut
  import opened Tunnel
  import opened TunnelRuns
  import opened TunnelTheorems
  import opened TunnelHistory

  /** A message that a connection has handled, and what it was sent on as. */
  datatype Handled = Handled(frame: Frame, hash: nat, sent: seq<Sending>)

  /** A message's payload has gone to each destination that the names of its label select, once, through
      an emitter that can talk to it, and to no others. */
  ghost predicate Goes(h: Handled, tab: map<string, seq<nat>>, channels: map<nat, set<string>>, options: Options)
    requires Selectable(tab)
  {
    var names := if h.frame.tag in channels then channels[h.frame.tag] else {};
    var wanted := set n | n in names && n in tab :: tab[n][h.hash % |tab[n]|];
    && (forall i :: 0 <= i < |h.sent| ==>
          && h.sent[i].dest in wanted && h.sent[i].payload == h.frame.payload
          && h.sent[i].dest in options && h.sent[i].emitter.kind in options[h.sent[i].dest])
    && (forall i, j :: 0 <= i < j < |h.sent| ==> h.sent[i].dest != h.sent[j].dest)
    && (forall d :: d in wanted ==> Reached(h.sent, d))
  }

  /** Everything that a connection has handled, in order. */
  ghost function Log(c: Connection): seq<Handled>
    requires c.Valid()
    reads c, c.buf
  {
    seq(|c.delivered|, k requires 0 <= k < |c.delivered| == |c.sent| reads c =>
          Handled(c.delivered[k], c.hash, c.sent[k]))
  }

  ghost predicate AllValid(conns: seq<Connection>)
    reads set c | c in conns :: c, set c | c in conns :: c.buf
  {
    forall c :: c in conns ==> c.Valid()
  }

  ghost function Logs(conns: seq<Connection>): seq<Handled>
    requires AllValid(conns)
    reads set c | c in conns :: c, set c | c in conns :: c.buf
    decreases |conns|
  {
    if conns == [] then []
    else
      assert conns[0] in conns && forall c :: c in conns[1..] ==> c in conns;
      Log(conns[0]) + Logs(conns[1..])
  }

  /** A label's outlet goes where its names select. */
  lemma OutletGoes(h: Handled, tab: map<string, seq<nat>>, channels: map<nat, set<string>>, options: Options,
                   outlets: map<nat, map<nat, Emitter>>)
    requires Selectable(tab) && OutletExact(outlets, tab, h.hash, channels, options, h.frame.tag)
    requires Spread(h.sent, OutletOf(outlets, h.frame.tag), h.frame.payload)
    ensures Goes(h, tab, channels, options)
  {
    hide Reached;
    var names := if h.frame.tag in channels then channels[h.frame.tag] else {};
    SelectedIs(tab, h.hash, names);
  }

  lemma SelectedIs(tab: map<string, seq<nat>>, hash: nat, names: set<string>)
    requires Selectable(tab)
    ensures Selected(tab, hash, names) == set n | n in names && n in tab :: tab[n][hash % |tab[n]|]
  {
    forall n | n in names && n in tab ensures Seek(tab, n, hash) == Some(tab[n][hash % |tab[n]|]) {
    }
  }

  lemma LogGoes(c: Connection)
    requires c.Valid()
    ensures |Log(c)| == |c.delivered|
    ensures forall k :: 0 <= k < |Log(c)| ==>
              Log(c)[k].frame == c.delivered[k] && Goes(Log(c)[k], c.tab, c.channels, c.options)
  {
    hide Goes, Selectable, OutletExact, Spread;
    forall k | 0 <= k < |Log(c)| ensures Goes(Log(c)[k], c.tab, c.channels, c.options) {
      var f := c.delivered[k];
      assert Forwards(c.clstats, f, c.sent[k]);
      OutletGoes(Log(c)[k], c.tab, c.channels, c.options, c.clstats[f.clid].outlets);
    }
  }

  /** Each connection has handled the messages in the bytes that came on it. */
  ghost predicate Heeded(conns: seq<Connection>, wires: seq<Bytes>)
    requires |conns| == |wires|
    reads set c | c in conns :: c
  {
    forall i :: 0 <= i < |conns| ==> conns[i] in conns && conns[i].delivered == Parse(wires[i]).frames
  }

  ghost predicate Configured(conns: seq<Connection>, tab: map<string, seq<nat>>, channels: map<nat, set<string>>,
                             options: Options)
  {
    forall c :: c in conns ==> c.tab == tab && c.channels == channels && c.options == options
  }

  lemma {:induction false} LogsGo(conns: seq<Connection>, wires: seq<Bytes>, tab: map<string, seq<nat>>,
                                  channels: map<nat, set<string>>, options: Options)
    requires AllValid(conns) && |conns| == |wires| && Heeded(conns, wires)
    requires Selectable(tab) && Configured(conns, tab, channels, options)
    ensures |Logs(conns)| == |HeardOn(wires)|
    ensures forall k :: 0 <= k < |Logs(conns)| ==>
              Logs(conns)[k].frame == HeardOn(wires)[k] && Goes(Logs(conns)[k], tab, channels, options)
  {
    hide Goes, Selectable, Parse, Log;
    if conns == [] {
    } else {
      var c := conns[0];
      assert c in conns;
      LogGoes(c);
      assert forall d :: d in conns[1..] ==> d in conns;
      assert forall i :: 0 <= i < |conns[1..]| ==> conns[1..][i] == conns[i + 1] && wires[1..][i] == wires[i + 1];
      LogsGo(conns[1..], wires[1..], tab, channels, options);
    }
  }

  /** Over any legal run from the start in which no connection was torn: if every byte that a connection
      accepted arrives, in whatever chunks, and no client's state was refused, so that each connection of
      the receiving end has handled the messages in its bytes, then what the connections have sent on is,
      message by message, one to each destination of every completed message's label. */
  lemma CarriedOnce(t: Tunnel, es: seq<Event>, chunks: seq<seq<Bytes>>, conns: seq<Connection>,
                    tab: map<string, seq<nat>>, channels: map<nat, set<string>>, options: Options)
    requires Initial(t) && Legal(t, es) && Executes(t, es) && NeverTears(t, es)
    requires |chunks| == |AllWires(t, es)| == |conns|
    requires forall i :: 0 <= i < |chunks| ==> Flatten(chunks[i]) == AllWires(t, es)[i]
    requires AllValid(conns) && Selectable(tab) && Configured(conns, tab, channels, options)
    requires forall i :: 0 <= i < |conns| ==> conns[i].delivered == Parse([] + Flatten(chunks[i])).frames
    ensures Inv(After(t, es)) && |Logs(conns)| == |FramesOf(After(t, es).sent)|
    ensures forall k :: 0 <= k < |Logs(conns)| ==>
              && Logs(conns)[k].frame == FramesOf(After(t, es).sent)[k]
              && Goes(Logs(conns)[k], tab, channels, options)
  {
    hide Initial, Legal, Executes, After, NeverTears, AllWires, Parse, Receive, Flatten, Goes, Inv, AllValid,
      Selectable, Configured, Logs;
    DeliveredOnce(t, es, chunks);
    ReceivedIsHeard(chunks, AllWires(t, es));
    forall i | 0 <= i < |conns| ensures conns[i].delivered == Parse(AllWires(t, es)[i]).frames {
      assert [] + Flatten(chunks[i]) == AllWires(t, es)[i];
    }
    LogsGo(conns, AllWires(t, es), tab, channels, options);
  }
}
