/** The bounded, preemptive queue (internal/queue/queue.go), one critical section at a time. */
module Queues {
  import opened PriorityQueues

  /** What Enqueue decides. The first two return a nil error; an eviction only shows in the log. */
  datatype Verdict = Accepted | Evicting(worst: Item) | Full | Closed

  /** Nothing in q may leave the queue after w. */
  ghost predicate IsWorst(w: Item, q: multiset<Item>) {
    w in q && forall y :: y in q ==> AtMost(y, w)
  }

  predicate Admitted(v: Verdict) {
    v.Accepted? || v.Evicting?
  }

  /** The decision of Enqueue on the items q, and the items after it. */
  ghost predicate Decides(q: multiset<Item>, x: Item, maxSize: int, preempt: bool, closed: bool, v: Verdict,
          after: multiset<Item>) {
    match v
    case Closed => closed && after == q
    case Accepted => !closed && |q| < maxSize && after == q + multiset{x}
    case Full =>
      && !closed && |q| >= maxSize && after == q
      && (preempt ==> forall y :: y in q ==> y.Priority <= x.Priority)
    case Evicting(w) =>
      && !closed && |q| >= maxSize && preempt
      && IsWorst(w, q) && x.Priority < w.Priority
      && after == q - multiset{w} + multiset{x}
  }

  /** No item has a larger priority number, so none has a lower priority. */
  ghost predicate HasLowestPriority(y: Item, q: multiset<Item>) {
    y in q && forall z :: z in q ==> z.Priority <= y.Priority
  }

  /** The item that documented evictions would choose: an oldest one of the lowest priority. */
  ghost predicate IsOldestOfLowest(w: Item, q: multiset<Item>) {
    HasLowestPriority(w, q) && forall y :: y in q && HasLowestPriority(y, q) ==> w.CreatedAt <= y.CreatedAt
  }

  /** All items of the lowest priority were created at the same time. */
  ghost predicate LowestAreOfOneAge(q: multiset<Item>) {
    forall y, z :: y in q && z in q && HasLowestPriority(y, q) && HasLowestPriority(z, q) ==> y.CreatedAt == z.CreatedAt
  }

  /**
   An eviction takes a newest item of the lowest priority, so it takes an oldest one, as documented,
   exactly when all items of that priority are of one age.
   */
  lemma {:induction false} EvictsOldestIff(q: multiset<Item>, x: Item, maxSize: int, w: Item, after: multiset<Item>)
    requires Decides(q, x, maxSize, true, false, Evicting(w), after)
    ensures HasLowestPriority(w, q) && forall y :: y in q && HasLowestPriority(y, q) ==> y.CreatedAt <= w.CreatedAt
    ensures IsOldestOfLowest(w, q) <==> LowestAreOfOneAge(q)
  {
    forall y | y in q && HasLowestPriority(y, q)
      ensures y.Priority == w.Priority && y.CreatedAt <= w.CreatedAt
    {
      assert AtMost(y, w);
    }
  }

  /** In a full queue of two items of one priority a more urgent item always takes the place of the newer one. */
  lemma {:induction false} NewerIsEvicted(older: Item, newer: Item, x: Item)
    requires older.Priority == newer.Priority && older.CreatedAt < newer.CreatedAt && x.Priority < newer.Priority
    ensures var q := multiset{older, newer};
      && Decides(q, x, 2, true, false, Evicting(newer), multiset{older, x})
      && forall v, after :: Decides(q, x, 2, true, false, v, after) ==>
        v == Evicting(newer) && after == multiset{older, x}
  {
    var q := multiset{older, newer};
    assert q - multiset{newer} + multiset{x} == multiset{older, x};
    assert older in q && newer in q;
  }

  /** A delivery order: nothing leaves before something that is ahead of it. */
  ghost predicate Sorted(order: seq<Item>) {
    forall i, j :: 0 <= i < j < |order| ==> AtMost(order[i], order[j])
  }

  class Queue {
    const pq: PriorityQueue
    const maxSize: int
    const preempt: bool
    var closed: bool
    /** The one-slot notify channel holds a token. */
    var notify: bool
    /** The done channel is closed; closing it again would panic. */
    var done: bool
    /** The sync.Once of Close has run. */
    var stopped: bool

    ghost predicate Valid()
      reads this, pq, pq.items
    {
      pq.Valid() && (done ==> closed) && (stopped <==> done)
    }

    ghost function Contents(): multiset<Item>
      reads this, pq
    {
      multiset(pq.items)
    }

    constructor (maxSize: int, preempt: bool)
      ensures Valid() && Contents() == multiset{} && !closed && !notify && !done && !stopped
      ensures this.maxSize == maxSize && this.preempt == preempt
      ensures fresh(pq)
    {
      this.maxSize, this.preempt := maxSize, preempt;
      closed, notify, done, stopped := false, false, false, false;
      pq := new PriorityQueue();
    }

    /** Scan for the item that would leave last; among ties in the order, the first one found. */
    method FindLowestPriority() returns (worst: Item?)
      requires pq.Valid()
      ensures worst == null <==> pq.items == []
      ensures worst != null ==>
        && IsWorst(worst, Contents())
        && 0 <= worst.index < |pq.items| && pq.items[worst.index] == worst
        && forall j :: 0 <= j < worst.index ==> Before(pq.items[j], worst)
    {
      if |pq.items| == 0 {
        return null;
      }
      worst := null;
      ghost var at := 0;
      for i := 0 to |pq.items|
        invariant worst == null <==> i == 0
        invariant worst != null ==>
          && 0 <= at < i && pq.items[at] == worst
          && (forall j :: 0 <= j < i ==> AtMost(pq.items[j], worst))
          && (forall j :: 0 <= j < at ==> Before(pq.items[j], worst))
      {
        var item := pq.items[i];
        if worst == null || item.Priority > worst.Priority
           || (item.Priority == worst.Priority && item.CreatedAt > worst.CreatedAt) {
          worst := item;
          at := i;
        }
      }
      forall y | y in Contents()
        ensures AtMost(y, worst)
      {
        assert y in pq.items;
      }
    }

    /** The full-queue part of Enqueue: refuse x, or evict the worst item for it. */
    method MakeRoom(x: Item) returns (v: Verdict)
      requires pq.Valid()
      modifies pq, Members(pq.items)`index
      ensures pq.Valid() && Members(pq.items) <= old(Members(pq.items))
      ensures !v.Closed? && (v.Accepted? <==> |old(Contents())| < maxSize)
      ensures !v.Evicting? ==> pq.items == old(pq.items)
      ensures v.Full? && preempt ==> forall y :: y in old(Contents()) ==> y.Priority <= x.Priority
      ensures v.Evicting? ==>
        && preempt && IsWorst(v.worst, old(Contents())) && x.Priority < v.worst.Priority
        && old(Contents()) == Contents() + multiset{v.worst} && v.worst.index == -1
    {
      if |pq.items| < maxSize {
        return Accepted;
      }
      if !preempt {
        return Full;
      }
      var worst := FindLowestPriority();
      if worst == null || x.Priority >= worst.Priority {
        WorstBounds(Contents(), worst, x);
        return Full;
      }
      ghost var before := pq.items;
      var removed := pq.Remove(worst.index);
      Shrinks(before, pq.items, worst);
      return Evicting(worst);
    }

    /** Enqueue: the decision above, at most one item in and at most one out, and a token on success. */
    method Enqueue(item: Item) returns (v: Verdict)
      requires Valid() && item !in pq.items
      modifies this`notify, pq, Members(pq.items)`index, item`index
      ensures Valid()
      ensures Decides(old(Contents()), item, maxSize, preempt, closed, v, Contents())
      ensures notify == (old(notify) || Admitted(v))
      ensures !Admitted(v) ==> pq.items == old(pq.items)
    {
      if closed {
        return Closed;
      }
      v := MakeRoom(item);
      if v.Full? {
        return;
      }
      assert item !in Members(pq.items);
      pq.Push(item);
      notify := true;
    }

    /** The dispatcher's critical section: take the most urgent item, if there is one. */
    method TakeNext() returns (item: Item?)
      requires Valid()
      modifies pq, Members(pq.items)`index
      ensures Valid()
      ensures item == null <==> old(Contents()) == multiset{}
      ensures item == null ==> Contents() == old(Contents())
      ensures item != null ==>
        && old(Contents()) == Contents() + multiset{item}
        && forall y :: y in old(Contents()) ==> AtMost(item, y)
    {
      if |pq.items| == 0 {
        return null;
      }
      assert pq.items[0] in Contents();
      item := pq.Pop();
    }

    /**
     Close: both stages hold afterwards, in this order, so the dispatcher never sees done while items can
     still come in. A second call changes nothing, and in particular does not close the channel again.
     Waiting items stay where they are.
     */
    method Close()
      requires Valid()
      modifies this`closed, this`done, this`stopped
      ensures Valid() && closed && done
      ensures old(done) ==> unchanged(this)
    {
      if !stopped {
        closed := true;
        CloseDone();
        stopped := true;
      }
    }

    /** close(done), which must not be closed already. */
    method CloseDone()
      requires closed && !done
      modifies this`done
      ensures done
    {
      done := true;
    }

    /**
     drainRemaining: pops everything; item number i goes to a worker when one is waiting then, and is
     dropped otherwise. The items leave in delivery order, each exactly once.
     */
    method DrainRemaining(waiting: nat -> bool) returns (order: seq<Item>, sent: seq<Item>, dropped: seq<Item>)
      requires Valid()
      modifies pq, Members(pq.items)`index
      ensures Valid() && Contents() == multiset{}
      ensures Sorted(order) && multiset(order) == old(Contents())
      ensures sent == Those(order, waiting, true) && dropped == Those(order, waiting, false)
    {
      order, sent, dropped := [], [], [];
      ghost var all := pq.items;
      while |pq.items| > 0
        invariant Valid() && Members(pq.items) <= Members(all)
        invariant multiset(order) + Contents() == old(Contents())
        invariant Sorted(order) && Precedes(order, pq.items)
        invariant sent == Those(order, waiting, true) && dropped == Those(order, waiting, false)
        decreases |pq.items|
      {
        ghost var before := pq.items;
        var item := pq.Pop();
        Shrinks(before, pq.items, item);
        PrecedesNext(order, before, pq.items, item);
        OneMore(order, item, waiting);
        if waiting(|order|) {
          sent := sent + [item];
        } else {
          dropped := dropped + [item];
        }
        order := order + [item];
      }
    }
  }

  /** The items of a drain for which a worker was waiting, or for which none was. */
  function Those(order: seq<Item>, waiting: nat -> bool, wanted: bool): seq<Item> {
    if order == [] then []
    else
      var last := |order| - 1;
      Those(order[..last], waiting, wanted) + (if waiting(last) == wanted then [order[last]] else [])
  }

  lemma {:induction false} OneMore(order: seq<Item>, x: Item, waiting: nat -> bool)
    ensures multiset(order + [x]) == multiset(order) + multiset{x}
    ensures Those(order + [x], waiting, true) == Those(order, waiting, true) + (if waiting(|order|) then [x] else [])
    ensures Those(order + [x], waiting, false) == Those(order, waiting, false) + (if waiting(|order|) then [] else [x])
  {
    assert (order + [x])[..|order|] == order;
  }

  /** Every drained item is either sent or dropped, exactly once. */
  lemma {:induction false} SentOrDropped(order: seq<Item>, waiting: nat -> bool)
    ensures multiset(order) == multiset(Those(order, waiting, true)) + multiset(Those(order, waiting, false))
  {
    if order != [] {
      var last := |order| - 1;
      SentOrDropped(order[..last], waiting);
      assert order == order[..last] + [order[last]];
      OneMore(order[..last], order[last], waiting);
    }
  }

  /** With a worker always waiting nothing is dropped. */
  lemma {:induction false} AllSent(order: seq<Item>, waiting: nat -> bool)
    requires forall i :: 0 <= i < |order| ==> waiting(i)
    ensures Those(order, waiting, true) == order && Those(order, waiting, false) == []
  {
    if order != [] {
      var last := |order| - 1;
      AllSent(order[..last], waiting);
      assert order == order[..last] + [order[last]];
    }
  }

  /** Everything in order leaves no later than everything in s. */
  ghost predicate Precedes(order: seq<Item>, s: seq<Item>) {
    forall i, k :: 0 <= i < |order| && 0 <= k < |s| ==> AtMost(order[i], s[k])
  }

  lemma {:induction false} PrecedesNext(order: seq<Item>, before: seq<Item>, after: seq<Item>, x: Item)
    requires Sorted(order) && Precedes(order, before)
    requires x in before && forall y :: y in before ==> AtMost(x, y)
    requires forall y :: y in after ==> y in before
    ensures Sorted(order + [x]) && Precedes(order + [x], after)
  {
    var at :| 0 <= at < |before| && before[at] == x;
    forall i, k | 0 <= i < |order + [x]| && 0 <= k < |after|
      ensures AtMost((order + [x])[i], after[k])
    {
      assert after[k] in before;
      var m :| 0 <= m < |before| && before[m] == after[k];
    }
  }

  /** When the worst item is not beaten, no item is. */
  lemma {:induction false} WorstBounds(q: multiset<Item>, worst: Item?, x: Item)
    requires worst == null ==> q == multiset{}
    requires worst != null ==> IsWorst(worst, q) && x.Priority >= worst.Priority
    ensures forall y :: y in q ==> y.Priority <= x.Priority
  {
  }

  lemma {:induction false} Shrinks(before: seq<Item>, after: seq<Item>, x: Item)
    requires multiset(before) == multiset(after) + multiset{x}
    ensures |after| == |before| - 1 && x in before
    ensures forall y :: y in after ==> y in before
    ensures Members(after) <= Members(before)
  {
    assert |multiset(before)| == |before| && |multiset(after)| == |after|;
    assert x in multiset(before);
    forall y | y in after
      ensures y in before
    {
      assert y in multiset(after) && y in multiset(before);
    }
  }
}
