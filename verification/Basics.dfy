// Shared vocabulary: octets, optional values and the "lost, but never reordered" relation.
module Basics {
  newtype byte = b: int | 0 <= b < 256

  type Bytes = seq<byte>

  datatype Option<+T> = None | Some(value: T)

  function Min(a: int, b: int): int {
    if a < b then a else b
  }

  /** Subtraction that stops at zero. */
  function Less(a: nat, b: nat): nat {
    if a < b then 0 else a - b
  }

  /** The scattered parts, in order, as one sequence. */
  function Flatten<T>(parts: seq<seq<T>>): seq<T> {
    if parts == [] then [] else parts[0] + Flatten(parts[1..])
  }

  lemma {:induction false} FlattenAppend<T>(a: seq<seq<T>>, b: seq<seq<T>>)
    ensures Flatten(a + b) == Flatten(a) + Flatten(b)
  {
    if a == [] {
      assert a + b == b;
    } else {
      assert (a + b)[1..] == a[1..] + b;
      FlattenAppend(a[1..], b);
    }
  }

  /** `kept` is `all` with some elements left out: nothing reordered, repeated or invented. */
  ghost predicate Subsequence<T>(kept: seq<T>, all: seq<T>)
    decreases |all|
  {
    if kept == [] then true
    else if all == [] then false
    else (kept[0] == all[0] && Subsequence(kept[1..], all[1..])) || Subsequence(kept, all[1..])
  }

  lemma {:induction false} SubsequenceSize<T>(kept: seq<T>, all: seq<T>)
    requires Subsequence(kept, all)
    ensures |kept| <= |all|
    ensures |kept| == |all| ==> kept == all
    ensures forall x :: x in kept ==> x in all
    decreases |all|
  {
    if kept == [] {
    } else {
      if kept[0] == all[0] && Subsequence(kept[1..], all[1..]) {
        SubsequenceSize(kept[1..], all[1..]);
        assert kept == [kept[0]] + kept[1..];
      } else {
        SubsequenceSize(kept, all[1..]);
      }
      assert all == [all[0]] + all[1..];
    }
  }

  lemma {:induction false} SubsequenceRefl<T>(s: seq<T>)
    ensures Subsequence(s, s)
  {
    if s == [] {
    } else {
      SubsequenceRefl(s[1..]);
    }
  }

  /** Anything may be left out in front, and a common start may be added. */
  lemma {:induction false} SubsequencePrefix<T>(front: seq<T>, kept: seq<T>, all: seq<T>)
    requires Subsequence(kept, all)
    ensures Subsequence(kept, front + all)
    ensures Subsequence(front + kept, front + all)
    decreases |front|
  {
    if front == [] {
      assert front + kept == kept && front + all == all;
    } else {
      assert (front + all)[1..] == front[1..] + all;
      assert (front + kept)[1..] == front[1..] + kept;
      SubsequencePrefix(front[1..], kept, all);
    }
  }

  lemma {:induction false} SubsequenceSuffix<T>(kept: seq<T>, all: seq<T>, back: seq<T>)
    requires Subsequence(kept, all)
    ensures Subsequence(kept, all + back)
    ensures Subsequence(kept + back, all + back)
    decreases |all|
  {
    if all == [] {
      assert kept + back == back && all + back == back;
      SubsequenceRefl(back);
    } else {
      assert (all + back)[1..] == all[1..] + back;
      if kept == [] {
        SubsequenceSuffix([], all[1..], back);
      } else if kept[0] == all[0] && Subsequence(kept[1..], all[1..]) {
        assert (kept + back)[1..] == kept[1..] + back;
        SubsequenceSuffix(kept[1..], all[1..], back);
      } else {
        SubsequenceSuffix(kept, all[1..], back);
      }
    }
  }

  lemma {:induction false} SubsequenceTrans<T>(a: seq<T>, b: seq<T>, c: seq<T>)
    requires Subsequence(a, b) && Subsequence(b, c)
    ensures Subsequence(a, c)
    decreases |b| + |c|
  {
    if a != [] && b != [] {
      if b[0] == c[0] && Subsequence(b[1..], c[1..]) {
        if a[0] == b[0] && Subsequence(a[1..], b[1..]) {
          SubsequenceTrans(a[1..], b[1..], c[1..]);
        } else {
          SubsequenceTrans(a, b[1..], c[1..]);
        }
      } else {
        SubsequenceTrans(a, b, c[1..]);
      }
    }
  }

  // ---------- the first of an ordered set ----------

  ghost predicate IsLeast(k: nat, keys: set<nat>) {
    k in keys && forall j :: j in keys ==> k <= j
  }

  lemma LeastUnique(j: nat, k: nat, keys: set<nat>)
    requires IsLeast(j, keys) && IsLeast(k, keys)
    ensures j == k
  {
  }

  ghost function LeastOf(keys: set<nat>): (k: nat)
    requires keys != {}
    ensures IsLeast(k, keys)
    decreases |keys|
  {
    var j :| j in keys;
    if keys - {j} == {} then
      assert keys == {j};
      j
    else
      var k := LeastOf(keys - {j});
      assert keys == (keys - {j}) + {j};
      if j < k then j else k
  }

  method Least(keys: set<nat>) returns (k: nat)
    requires keys != {}
    ensures IsLeast(k, keys)
  {
    ghost var least := LeastOf(keys);
    k :| k in keys && forall j :: j in keys ==> k <= j;
  }
}
