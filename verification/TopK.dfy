/**
 Preemption as a streaming selection: what a run of Enqueues with preemption and no Dequeue keeps
 (internal/queue/queue.go).
 */
module TopK {
  import opened PriorityQueues
  import opened Queues

  /** A run of offers to a preemptive queue of size k that starts empty. */
  ghost predicate Offers(k: nat, xs: seq<Item>, qs: seq<multiset<Item>>, vs: seq<Verdict>) {
    && |qs| == |xs| + 1 && |vs| == |xs|
    && qs[0] == multiset{}
    && forall t :: 0 <= t < |xs| ==> Decides(qs[t], xs[t], k, true, false, vs[t], qs[t + 1])
  }

  /**
   kept is a choice of k out of all (or everything when there are fewer), and nothing left out should
   have been kept.
   */
  ghost predicate Chosen(kept: multiset<Item>, all: multiset<Item>, k: nat) {
    kept <= all && |kept| == if |all| < k then |all| else k
  }

  ghost predicate LowestPriorities(kept: multiset<Item>, all: multiset<Item>, k: nat) {
    && Chosen(kept, all, k)
    && forall x, y :: x in kept && y in all - kept ==> x.Priority <= y.Priority
  }

  ghost predicate MostUrgent(kept: multiset<Item>, all: multiset<Item>, k: nat) {
    && Chosen(kept, all, k)
    && forall x, y :: x in kept && y in all - kept ==> AtMost(x, y)
  }

  lemma {:induction false} OfferKeepsChosen(q: multiset<Item>, all: multiset<Item>, k: nat, x: Item, v: Verdict,
          after: multiset<Item>)
    requires Chosen(q, all, k) && Decides(q, x, k, true, false, v, after)
    ensures Chosen(after, all + multiset{x}, k)
    ensures v.Accepted? ==> q == all
    ensures all + multiset{x} - after == (all - q) +
      (if v.Full? then multiset{x} else if v.Evicting? then multiset{v.worst} else multiset{})
  {
    if v.Accepted? {
      assert q == all by {
        Covers(q, all);
      }
    } else if v.Evicting? {
      assert all + multiset{x} - after == (all - q) + multiset{v.worst};
    }
  }

  lemma {:induction false} Covers(q: multiset<Item>, all: multiset<Item>)
    requires q <= all && |q| == |all|
    ensures q == all
  {
    assert all == q + (all - q);
  }

  lemma {:induction false} OfferKeepsLowest(q: multiset<Item>, all: multiset<Item>, k: nat, x: Item, v: Verdict,
          after: multiset<Item>)
    requires LowestPriorities(q, all, k) && Decides(q, x, k, true, false, v, after)
    ensures LowestPriorities(after, all + multiset{x}, k)
  {
    OfferKeepsChosen(q, all, k, x, v, after);
    var out := all + multiset{x} - after;
    forall a, b | a in after && b in out
      ensures a.Priority <= b.Priority
    {
      if v.Evicting? {
        assert a == x || a in q;
        assert b == v.worst || b in all - q;
      } else if v.Full? {
        assert b == x || b in all - q;
      }
    }
  }

  lemma {:induction false} OneMoreOffered(xs: seq<Item>, t: nat)
    requires 0 < t <= |xs|
    ensures multiset(xs[..t]) == multiset(xs[..t - 1]) + multiset{xs[t - 1]}
  {
    assert xs[..t] == xs[..t - 1] + [xs[t - 1]];
  }

  /** Whatever the arrival order, the queue keeps items of the k lowest priority numbers offered so far. */
  lemma {:induction false} KeepsLowestPriorities(k: nat, xs: seq<Item>, qs: seq<multiset<Item>>, vs: seq<Verdict>,
          t: nat)
    requires Offers(k, xs, qs, vs) && t <= |xs|
    ensures LowestPriorities(qs[t], multiset(xs[..t]), k)
  {
    if t != 0 {
      KeepsLowestPriorities(k, xs, qs, vs, t - 1);
      OfferKeepsLowest(qs[t - 1], multiset(xs[..t - 1]), k, xs[t - 1], vs[t - 1], qs[t]);
      OneMoreOffered(xs, t);
    }
  }

  lemma {:induction false} OfferKeepsUrgent(q: multiset<Item>, all: multiset<Item>, k: nat, x: Item, v: Verdict,
          after: multiset<Item>)
    requires MostUrgent(q, all, k) && Decides(q, x, k, true, false, v, after)
    requires forall y :: y in all ==> y.CreatedAt <= x.CreatedAt
    ensures MostUrgent(after, all + multiset{x}, k)
  {
    OfferKeepsChosen(q, all, k, x, v, after);
    var out := all + multiset{x} - after;
    forall a, b | a in after && b in out
      ensures AtMost(a, b)
    {
      if v.Evicting? {
        assert a == x || a in q;
        assert b == v.worst || b in all - q;
      } else if v.Full? {
        assert a in all;
        assert b == x || b in all - q;
      }
    }
  }

  /** When items arrive in CreatedAt order the queue keeps exactly k most urgent items by (Priority, CreatedAt). */
  lemma {:induction false} KeepsMostUrgent(k: nat, xs: seq<Item>, qs: seq<multiset<Item>>, vs: seq<Verdict>, t: nat)
    requires Offers(k, xs, qs, vs) && t <= |xs|
    requires forall i, j :: 0 <= i < j < |xs| ==> xs[i].CreatedAt <= xs[j].CreatedAt
    ensures MostUrgent(qs[t], multiset(xs[..t]), k)
  {
    if t != 0 {
      KeepsMostUrgent(k, xs, qs, vs, t - 1);
      forall y | y in multiset(xs[..t - 1])
        ensures y.CreatedAt <= xs[t - 1].CreatedAt
      {
        var i :| 0 <= i < t - 1 && xs[i] == y;
      }
      OfferKeepsUrgent(qs[t - 1], multiset(xs[..t - 1]), k, xs[t - 1], vs[t - 1], qs[t]);
      OneMoreOffered(xs, t);
    }
  }
}
