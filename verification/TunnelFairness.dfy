// How the sending end shares a connection among its channels (tcp_ingress.cc).
module TunnelFairness {
  import opened Basics
  import opened Wire
  import opened Channels
  import opened Tunnel
  import opened TunnelRuns

  /** The channels of some completed messages. */
  function Senders(sent: seq<Sent>): seq<nat> {
    seq(|sent|, k requires 0 <= k < |sent| => sent[k].chan)
  }

  /** `u` has dropped the first of those that were waiting in `t`, and some of these have completed
      a message, in the order in which they were waiting. */
  ghost predicate Served(u: Tunnel, t: Tunnel) {
    && |u.waiting| <= |t.waiting|
    && u.waiting == t.waiting[|t.waiting| - |u.waiting|..]
    && t.sent <= u.sent
    && Subsequence(Senders(u.sent[|t.sent|..]), t.waiting[..|t.waiting| - |u.waiting|])
  }

  lemma TookServes(t: Tunnel, n: nat)
    requires Sound(t) && HeadHeld(t)
    ensures var u := TookSome(t, n);
            && (u.waiting == t.waiting || u.waiting == t.waiting[1..])
            && Served(u, t)
  {
    hide Sound, TookSome, Consumed, Offer, Encode, Good;
    TookShape(t, n);
    var u := TookSome(t, n);
    if u.waiting == t.waiting {
      assert Senders(u.sent[|t.sent|..]) == [];
    } else {
      assert Senders(u.sent[|t.sent|..]) == [t.waiting[0]] == t.waiting[..1];
      SubsequenceRefl(t.waiting[..1]);
    }
  }

  lemma NoneServed(u: Tunnel, t: Tunnel)
    requires u.sent == t.sent && (u.waiting == t.waiting || (t.waiting != [] && u.waiting == t.waiting[1..]))
    ensures Served(u, t)
  {
    assert Senders(u.sent[|t.sent|..]) == [];
  }

  lemma SetFirstKeeps(t: Tunnel, c: Chan)
    requires Sound(t) && t.waiting != []
    ensures SetFirst(t, c).sent == t.sent && SetFirst(t, c).waiting == t.waiting
  {
    hide ChanValid;
  }

  /** Taking up the head of a queue and stopping change nothing here. */
  lemma OtherTurns(t: Tunnel)
    requires Sound(t) && t.waiting != []
    ensures Described(t).sent == t.sent && Described(t).waiting == t.waiting
    ensures HeadHeld(t) ==> Block(t).sent == t.sent && Block(t).waiting == t.waiting
    ensures HeadHeld(t) ==> Break(t).sent == t.sent && Break(t).waiting == t.waiting
  {
    hide Sound, ChanValid, Describe, Consumed, SetFirst, Offer, HeadHeld;
    SetFirstKeeps(t, Describe(FirstChan(t)));
    if HeadHeld(t) {
      HeldFirst(t);
      SetFirstKeeps(t, Consumed(FirstChan(t), 0));
      SetFirstKeeps(t, Failed(FirstChan(t)));
    }
  }

  lemma TurnServes(t: Tunnel, script: seq<Answer>)
    requires Sound(t) && t.waiting != []
    ensures Served(LoopTurn(t, script).t, t)
  {
    hide ChanValid, Described, TookSome, Block, Break, Sound, Served, HeadHeld;
    DescribedSound(t);
    OtherTurns(t);
    var d := Described(t);
    if !HeadHeld(d) {
      NoneServed(Skip(d), t);
    } else if script != [] && script[0].Took? {
      TookServes(d, script[0].n);
      NoneServed(d, t);
      ServedTwice(TookSome(d, script[0].n), d, t);
    } else {
      OtherTurns(d);
      NoneServed(LoopTurn(t, script).t, t);
    }
  }

  lemma ServedTwice(w: Tunnel, u: Tunnel, t: Tunnel)
    requires Served(w, u) && Served(u, t)
    ensures Served(w, t)
  {
    var first, more := t.waiting[..|t.waiting| - |u.waiting|], u.waiting[..|u.waiting| - |w.waiting|];
    assert t.waiting[..|t.waiting| - |w.waiting|] == first + more;
    assert Senders(w.sent[|t.sent|..]) == Senders(u.sent[|t.sent|..]) + Senders(w.sent[|u.sent|..]);
    SubsequenceSuffix(Senders(u.sent[|t.sent|..]), first, Senders(w.sent[|u.sent|..]));
    SubsequencePrefix(first, Senders(w.sent[|u.sent|..]), more);
    SubsequenceTrans(Senders(w.sent[|t.sent|..]), first + Senders(w.sent[|u.sent|..]), first + more);
  }

  /** One call sends at most one message of each source, in the order of the queue: whoever has sent
      one leaves the queue, and can only join it again at the end. */
  lemma {:induction false} LoopServes(t: Tunnel, script: seq<Answer>)
    requires Sound(t)
    ensures Served(SendLoop(t, script), t)
    decreases |t.waiting|, Pending(t)
  {
    hide Sound, Pending, LoopTurn, Served;
    if t.waiting == [] {
      NoneServed(t, t);
    } else {
      TurnServes(t, script);
      var turn := LoopTurn(t, script);
      if turn.Again? {
        LoopProgress(t, script);
        LoopServes(turn.t, turn.script);
        ServedTwice(SendLoop(t, script), turn.t, t);
      }
    }
  }

  /** As no source is in the queue twice, none sends twice in one call. */
  lemma AtMostOneEach(t: Tunnel, script: seq<Answer>, i: nat, j: nat)
    requires Inv(t) && |t.sent| <= i < j < |SendLoop(t, script).sent|
    ensures SendLoop(t, script).sent[i].chan != SendLoop(t, script).sent[j].chan
  {
    hide Sound, SendLoop, ChansOk, Framing;
    LoopServes(t, script);
    var u := SendLoop(t, script);
    var n := |t.sent|;
    SubsequenceDistinct(Senders(u.sent[n..]), t.waiting[..|t.waiting| - |u.waiting|]);
    assert Senders(u.sent[n..])[i - n] == u.sent[i].chan && Senders(u.sent[n..])[j - n] == u.sent[j].chan;
  }

  lemma {:induction false} SubsequenceDistinct(kept: seq<nat>, all: seq<nat>)
    requires Subsequence(kept, all) && forall i, j :: 0 <= i < j < |all| ==> all[i] != all[j]
    ensures forall i, j :: 0 <= i < j < |kept| ==> kept[i] != kept[j]
    decreases |all|
  {
    if kept == [] {
    } else {
      if kept[0] == all[0] && Subsequence(kept[1..], all[1..]) {
        SubsequenceDistinct(kept[1..], all[1..]);
        SubsequenceSize(kept[1..], all[1..]);
        forall j | 0 < j < |kept| ensures kept[j] != kept[0] {
          assert kept[1..][j - 1] in all[1..];
        }
        assert forall j :: 0 < j < |kept| ==> kept[j] == kept[1..][j - 1];
      } else {
        SubsequenceDistinct(kept, all[1..]);
      }
    }
  }
}
