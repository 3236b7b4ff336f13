/**
 The heap of queued items: container/heap's algorithms over the repository's Less, Swap, Push and
 Pop (internal/queue/priority_queue.go). The slice holds pointers, and every item stores its own
 position in `index`.
 */
module PriorityQueues {

  /** A queued request. Only its position ever changes. */
  class Item {
    const RequestID: string
    const Priority: int
    const CreatedAt: int
    var index: int

    constructor (id: string, priority: int, createdAt: int)
      ensures RequestID == id && Priority == priority && CreatedAt == createdAt
    {
      RequestID, Priority, CreatedAt := id, priority, createdAt;
      index := 0;
    }
  }

  // ----- the order -----

  /** a is strictly more urgent than b: lower priority number, then older. */
  predicate Before(a: Item, b: Item) {
    if a.Priority != b.Priority then a.Priority < b.Priority else a.CreatedAt < b.CreatedAt
  }

  /** a may leave the queue before b. */
  predicate AtMost(a: Item, b: Item) {
    !Before(b, a)
  }

  function Parent(k: nat): nat
    requires 1 <= k
  {
    (k - 1) / 2
  }

  /** Position k is in order with its parent. */
  predicate InOrder(s: seq<Item>, k: nat)
    requires 1 <= k < |s|
  {
    AtMost(s[Parent(k)], s[k])
  }

  /** Within the first n positions every child of a position from lo on is in order. */
  ghost predicate HeapFrom(s: seq<Item>, n: nat, lo: nat)
    requires n <= |s|
  {
    forall k :: 1 <= k < n && lo <= Parent(k) ==> InOrder(s, k)
  }

  /** The first n positions are a heap. */
  ghost predicate Heap(s: seq<Item>, n: nat)
    requires n <= |s|
  {
    HeapFrom(s, n, 0)
  }

  lemma {:induction false} RootIsLeast(s: seq<Item>, n: nat, k: nat)
    requires n <= |s| && Heap(s, n) && k < n
    ensures AtMost(s[0], s[k])
  {
    if k != 0 {
      RootIsLeast(s, n, Parent(k));
      assert InOrder(s, k);
    }
  }

  function Swapped(s: seq<Item>, i: nat, j: nat): (r: seq<Item>)
    requires i < |s| && j < |s|
    ensures |r| == |s|
  {
    s[i := s[j]][j := s[i]]
  }

  lemma {:induction false} SwappedMultiset(s: seq<Item>, i: nat, j: nat)
    requires i < |s| && j < |s|
    ensures multiset(Swapped(s, i, j)) == multiset(s)
  {
  }

  /** Everything in order except possibly j with its parent; j's children are in order with j's parent. */
  ghost predicate HeapExceptUp(s: seq<Item>, n: nat, j: nat)
    requires n <= |s|
  {
    && (forall k :: 1 <= k < n && k != j ==> InOrder(s, k))
    && (forall k :: 1 <= k < n && Parent(k) == j && 1 <= j ==> AtMost(s[Parent(j)], s[k]))
  }

  /**
   From lo on, everything in order except possibly the children of i with i, and, while i is still
   the start position, i with its parent; i's children are in order with i's parent.
   */
  ghost predicate HeapExceptDown(s: seq<Item>, n: nat, i: nat, start: nat, lo: nat)
    requires n <= |s|
  {
    && (forall k :: 1 <= k < n && lo <= Parent(k) && Parent(k) != i && (k != i || i != start) ==> InOrder(s, k))
    && (forall k :: 1 <= k < n && Parent(k) == i && 1 <= i && lo <= Parent(i) ==> AtMost(s[Parent(i)], s[k]))
  }

  lemma {:induction false} SiftUpStep(s: seq<Item>, n: nat, j: nat)
    requires n <= |s| && 1 <= j < n && HeapExceptUp(s, n, j)
    requires Before(s[j], s[Parent(j)])
    ensures HeapExceptUp(Swapped(s, Parent(j), j), n, Parent(j))
  {
    var i := Parent(j);
    var r := Swapped(s, i, j);
    forall k | 1 <= k < n && k != i
      ensures InOrder(r, k)
    {
      if k != j {
        assert InOrder(s, k);
      }
    }
    forall k | 1 <= k < n && Parent(k) == i && 1 <= i
      ensures AtMost(r[Parent(i)], r[k])
    {
      assert InOrder(s, i);
      if k != j {
        assert InOrder(s, k);
      }
    }
  }

  /** The child that down compares with: the right one only when it is strictly more urgent. */
  function Child(s: seq<Item>, n: nat, i: nat): (j: nat)
    requires n <= |s| && 2 * i + 1 < n
    ensures 1 <= j < n && Parent(j) == i
  {
    if 2 * i + 2 < n && Before(s[2 * i + 2], s[2 * i + 1]) then 2 * i + 2 else 2 * i + 1
  }

  lemma {:induction false} ChildIsLeast(s: seq<Item>, n: nat, i: nat, k: nat)
    requires n <= |s| && 2 * i + 1 < n && 1 <= k < n && Parent(k) == i
    ensures AtMost(s[Child(s, n, i)], s[k])
  {
    assert k == 2 * i + 1 || k == 2 * i + 2;
  }

  lemma {:induction false} SiftDownStep(s: seq<Item>, n: nat, i: nat, start: nat, lo: nat)
    requires n <= |s| && lo <= start <= i && 2 * i + 1 < n && HeapExceptDown(s, n, i, start, lo)
    requires Before(s[Child(s, n, i)], s[i])
    ensures HeapExceptDown(Swapped(s, i, Child(s, n, i)), n, Child(s, n, i), start, lo)
  {
    var j := Child(s, n, i);
    var r := Swapped(s, i, j);
    forall k | 1 <= k < n && lo <= Parent(k) && Parent(k) != j && (k != j || j != start)
      ensures InOrder(r, k)
    {
      if Parent(k) == i {
        ChildIsLeast(s, n, i, k);
      } else if k == i {
        assert AtMost(s[Parent(i)], s[j]);
      } else {
        assert InOrder(s, k);
      }
    }
    forall k | 1 <= k < n && Parent(k) == j
      ensures AtMost(r[Parent(j)], r[k])
    {
      assert InOrder(s, k);
    }
  }

  lemma {:induction false} SiftDownStops(s: seq<Item>, n: nat, i: nat, start: nat, lo: nat)
    requires n <= |s| && HeapExceptDown(s, n, i, start, lo)
    requires 2 * i + 1 < n ==> !Before(s[Child(s, n, i)], s[i])
    ensures forall k :: 1 <= k < n && lo <= Parent(k) && (k != i || i != start) ==> InOrder(s, k)
  {
    forall k | 1 <= k < n && lo <= Parent(k) && (k != i || i != start)
      ensures InOrder(s, k)
    {
      if Parent(k) == i {
        ChildIsLeast(s, n, i, k);
      }
    }
  }

  // ----- the heap object -----

  class PriorityQueue {
    var items: seq<Item>

    /** Every item knows where it is; so the items are distinct. */
    ghost predicate Indexed()
      reads this, items
    {
      forall i :: 0 <= i < |items| ==> items[i].index == i
    }

    ghost predicate Valid()
      reads this, items
    {
      Indexed() && Heap(items, |items|)
    }

    constructor ()
      ensures Valid() && items == []
    {
      items := [];
    }

    method Less(i: nat, j: nat) returns (less: bool)
      requires i < |items| && j < |items|
      ensures less <==> Before(items[i], items[j])
    {
      if items[i].Priority != items[j].Priority {
        return items[i].Priority < items[j].Priority;
      }
      return items[i].CreatedAt < items[j].CreatedAt;
    }

    method Swap(i: nat, j: nat)
      requires Indexed() && i < |items| && j < |items|
      modifies this, Members(items)`index
      ensures items == Swapped(old(items), i, j)
      ensures Indexed()
    {
      var a, b := items[i], items[j];
      items := items[i := b][j := a];
      items[i].index := i;
      items[j].index := j;
    }

    /** container/heap's up: moves the item at j0 towards the root. */
    method Up(j0: nat, ghost n: nat)
      requires Indexed() && j0 < n <= |items|
      requires HeapExceptUp(items, n, j0)
      modifies this, Members(items)`index
      ensures Indexed() && |items| == old(|items|)
      ensures Heap(items, n)
      ensures multiset(items) == old(multiset(items)) && items[n..] == old(items[n..])
    {
      var j: nat := j0;
      ghost var was := items;
      while true
        invariant |items| == |was| && j < n
        invariant Indexed() && HeapExceptUp(items, n, j)
        invariant multiset(items) == multiset(was) && items[n..] == was[n..]
        decreases j
      {
        var i: nat := if j == 0 then 0 else (j - 1) / 2;
        if i == j {
          break;
        }
        var less := Less(j, i);
        if !less {
          break;
        }
        SiftUpStep(items, n, j);
        SwappedMultiset(items, i, j);
        MembersSame(items, was);
        Swap(i, j);
        j := i;
      }
    }

    /** The child of i that down compares with. */
    method UrgentChild(i: nat, n: nat) returns (j: nat)
      requires n <= |items| && 2 * i + 1 < n
      ensures j == Child(items, n, i)
    {
      var j1 := 2 * i + 1;
      j := j1;
      var j2 := j1 + 1;
      if j2 < n {
        var right := Less(j2, j1);
        if right {
          j := j2;
        }
      }
    }

    /**
     container/heap's down: moves the item at i0 towards the leaves of the first n positions. If it
     did not move, everything but possibly i0 with its own parent is in order.
     */
    method Down(i0: nat, n: nat, ghost lo: nat) returns (moved: bool)
      requires Indexed() && lo <= i0 && n <= |items|
      requires HeapExceptDown(items, n, i0, i0, lo)
      modifies this, Members(items)`index
      ensures Indexed() && |items| == old(|items|)
      ensures moved ==> HeapFrom(items, n, lo)
      ensures !moved ==> items == old(items) && forall k :: 1 <= k < n && lo <= Parent(k) && k != i0 ==>
        InOrder(items, k)
      ensures multiset(items) == old(multiset(items)) && items[n..] == old(items[n..])
    {
      var i: nat := i0;
      ghost var was := items;
      while true
        invariant |items| == |was| && i0 <= i
        invariant Indexed() && HeapExceptDown(items, n, i, i0, lo)
        invariant i == i0 ==> items == was
        invariant multiset(items) == multiset(was) && items[n..] == was[n..]
        decreases n - i
      {
        if 2 * i + 1 >= n {
          break;
        }
        var j := UrgentChild(i, n);
        var less := Less(j, i);
        if !less {
          break;
        }
        SiftDownStep(items, n, i, i0, lo);
        SwappedMultiset(items, i, j);
        MembersSame(items, was);
        Swap(i, j);
        i := j;
      }
      SiftDownStops(items, n, i, i0, lo);
      moved := i > i0;
    }

    /** container/heap's Init: any indexed slice becomes a heap of the same items. */
    method Init()
      requires Indexed()
      modifies this, Members(items)`index
      ensures Valid() && multiset(items) == old(multiset(items))
    {
      ghost var was := items;
      var n := |items|;
      for i := n / 2 downto 0
        invariant |items| == n && Indexed() && HeapFrom(items, n, i)
        invariant multiset(items) == multiset(was)
      {
        MembersSame(items, was);
        var moved := Down(i, n, i);
        if !moved {
          assert forall k :: 1 <= k < n && i <= Parent(k) ==> k != i;
        }
      }
    }

    /** The repository's Push: append, and note the position. */
    method Append(x: Item)
      requires Indexed() && x !in items
      modifies this, x`index
      ensures items == old(items) + [x] && Indexed()
    {
      x.index := |items|;
      items := items + [x];
    }

    /** The repository's Pop: cut the last item off and mark it as removed. */
    method CutLast() returns (x: Item)
      requires Indexed() && items != []
      modifies this, Members(items)`index
      ensures items == old(items[..|items| - 1]) && x == old(items[|items| - 1])
      ensures Indexed() && x.index == -1
    {
      x := items[|items| - 1];
      x.index := -1;
      items := items[..|items| - 1];
    }

    /** heap.Push adds exactly one item. */
    method Push(x: Item)
      requires Valid() && x !in items
      modifies this, Members(items)`index, x`index
      ensures Valid() && multiset(items) == old(multiset(items)) + multiset{x}
    {
      Append(x);
      Up(|items| - 1, |items|);
    }

    /** First half of heap.Pop: the root goes to the end, the rest is a heap again. */
    method RootToEnd()
      requires Valid() && items != []
      modifies this, Members(items)`index
      ensures Indexed() && |items| == old(|items|) && Heap(items, |items| - 1)
      ensures items[|items| - 1] == old(items[0]) && multiset(items) == old(multiset(items))
    {
      ghost var was := items;
      var n := |items| - 1;
      SwappedMultiset(items, 0, n);
      MembersSame(Swapped(items, 0, n), items);
      Swap(0, n);
      ghost var swapped := items;
      var moved := Down(0, n, 0);
      assert items[n] == items[n..][0] == swapped[n..][0] == was[0];
    }

    /** heap.Pop takes out one item that nothing in the heap is ahead of. */
    method Pop() returns (x: Item)
      requires Valid() && items != []
      modifies this, Members(items)`index
      ensures Valid() && old(multiset(items)) == multiset(items) + multiset{x}
      ensures forall y :: y in old(items) ==> AtMost(x, y)
      ensures x.index == -1
    {
      ghost var was := items;
      RootIsLeastOfAll(items);
      RootToEnd();
      MembersSame(items, was);
      LastApart(items);
      x := CutLast();
    }

    /** First half of heap.Remove: item i goes to the end, the rest is a heap again. */
    method ToEnd(i: nat)
      requires Valid() && i < |items|
      modifies this, Members(items)`index
      ensures Indexed() && |items| == old(|items|) && Heap(items, |items| - 1)
      ensures items[|items| - 1] == old(items[i]) && multiset(items) == old(multiset(items))
    {
      ghost var was := items;
      var n := |items| - 1;
      if n != i {
        SwappedMultiset(items, i, n);
        MembersSame(Swapped(items, i, n), items);
        RemoveStart(items, i, n);
        Swap(i, n);
        ghost var swapped := items;
        var moved := Down(i, n, 0);
        MembersSame(items, was);
        if !moved {
          Up(i, n);
        }
        assert items[n] == items[n..][0] == swapped[n..][0] == was[i];
      }
    }

    /** heap.Remove takes out exactly the item at position i, wherever that is. */
    method Remove(i: nat) returns (x: Item)
      requires Valid() && i < |items|
      modifies this, Members(items)`index
      ensures Valid() && old(multiset(items)) == multiset(items) + multiset{x}
      ensures x == old(items[i]) && x.index == -1
    {
      ghost var was := items;
      ToEnd(i);
      MembersSame(items, was);
      LastApart(items);
      x := CutLast();
    }
  }

  lemma {:induction false} RootIsLeastOfAll(s: seq<Item>)
    requires s != [] && Heap(s, |s|)
    ensures forall y :: y in s ==> AtMost(s[0], y)
  {
    forall k | 0 <= k < |s|
      ensures AtMost(s[0], s[k])
    {
      RootIsLeast(s, |s|, k);
    }
  }

  lemma {:induction false} LastApart(s: seq<Item>)
    requires s != []
    ensures multiset(s) == multiset(s[..|s| - 1]) + multiset{s[|s| - 1]}
  {
    assert s == s[..|s| - 1] + [s[|s| - 1]];
  }

  /** With the last item put in place of item i, down may start at i on the rest. */
  lemma {:induction false} RemoveStart(s: seq<Item>, i: nat, n: nat)
    requires i < n == |s| - 1 && Heap(s, |s|)
    ensures HeapExceptDown(Swapped(s, i, n), n, i, i, 0)
  {
    forall k | 1 <= k < n && Parent(k) == i && 1 <= i
      ensures AtMost(s[Parent(i)], s[k])
    {
      assert InOrder(s, k) && InOrder(s, i);
    }
    forall k | 1 <= k < n && Parent(k) != i && k != i
      ensures InOrder(Swapped(s, i, n), k)
    {
      assert InOrder(s, k);
    }
  }

  function Members(s: seq<Item>): set<Item> {
    set x | x in s
  }

  lemma {:induction false} MembersSame(s: seq<Item>, t: seq<Item>)
    requires multiset(s) == multiset(t)
    ensures Members(s) == Members(t)
  {
    forall x | x in s
      ensures x in t
    {
      assert x in multiset(s);
    }
    forall x | x in t
      ensures x in s
    {
      assert x in multiset(t);
    }
  }
}
