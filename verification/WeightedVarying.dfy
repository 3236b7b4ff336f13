/**
 Smooth weighted round robin on lists that change from call to call, which is what GetKey
 passes in: keys drop out while their breaker is open or they are refused.
 */
module WeightedVarying {
  import opened Wrappers
  import opened WeightedRR

  /** The keys of a pool that one call is offered. */
  function Offered(pool: seq<Entry>, mask: seq<bool>): seq<Entry>
    requires |pool| == |mask|
  {
    if pool == [] then []
    else
      var last := |pool| - 1;
      Offered(pool[..last], mask[..last]) + (if mask[last] then [pool[last]] else [])
  }

  ghost predicate Positive(ks: seq<Entry>) {
    forall i :: 0 <= i < |ks| ==> 1 <= ks[i].weight
  }

  /** A list a pool of total weight wmax can offer. */
  ghost predicate Within(ks: seq<Entry>, wmax: int) {
    DistinctIds(ks) && Positive(ks) && Total(ks) <= wmax
  }

  lemma {:induction false} OfferedIsWithin(pool: seq<Entry>, mask: seq<bool>)
    requires |pool| == |mask| && DistinctIds(pool) && Positive(pool)
    ensures Within(Offered(pool, mask), Total(pool))
    ensures forall k :: k in Offered(pool, mask) ==> k in pool
  {
    if pool != [] {
      var last := |pool| - 1;
      OfferedIsWithin(pool[..last], mask[..last]);
      var before := Offered(pool[..last], mask[..last]);
      assert DistinctIds(pool[..last]) && Positive(pool[..last]);
      var all := Offered(pool, mask);
      if mask[last] {
        assert all[..|before|] == before && all[|before|] == pool[last];
        forall i | 0 <= i < |before|
          ensures before[i].id != pool[last].id
        {
          assert before[i] in pool[..last];
        }
      } else {
        assert all == before;
      }
    }
  }

  /** A run of calls from Reset, on a list of its own each. */
  ghost predicate Run(lists: seq<seq<Entry>>, cws: seq<Weights>, picks: seq<Option<nat>>) {
    && |cws| == |lists| + 1 && |picks| == |lists|
    && cws[0] == map[]
    && forall t :: 0 <= t < |lists| ==> Outcome(cws[t + 1], picks[t]) == Next(cws[t], lists[t])
  }

  ghost predicate Floor(cw: Weights, wmax: int) {
    forall id :: 0 - wmax <= At(cw, id)
  }

  lemma {:induction false} CallKeepsFloor(cw: Weights, ks: seq<Entry>, wmax: nat, o: Outcome)
    requires Within(ks, wmax) && Floor(cw, wmax)
    requires Settles(cw, ks, o) && Chooses(cw, ks, o.pick)
    requires forall id :: !Lists(ks, id) ==> At(o.weights, id) == At(cw, id)
    ensures Floor(o.weights, wmax)
  {
    forall id
      ensures 0 - wmax <= At(o.weights, id)
    {
      if Lists(ks, id) {
        var i :| 0 <= i < |ks| && ks[i].id == id;
        assert 0 - wmax <= At(cw, ks[i].id);
        assert At(o.weights, ks[i].id)
            == At(cw, ks[i].id) + ks[i].weight - (if o.pick == Some(i) then Total(ks) else 0);
      }
    }
  }

  /** Over any run of Selects on lists a pool of total weight wmax can offer, no accumulator drops below -wmax. */
  lemma {:induction false} NeverBelowPool(lists: seq<seq<Entry>>, cws: seq<Weights>, picks: seq<Option<nat>>,
          wmax: nat, t: nat)
    requires Run(lists, cws, picks) && t <= |lists|
    requires forall s :: 0 <= s < |lists| ==> Within(lists[s], wmax)
    ensures Floor(cws[t], wmax)
  {
    if t != 0 {
      NeverBelowPool(lists, cws, picks, wmax, t - 1);
      OneCallKeepsFloor(cws[t - 1], lists[t - 1], wmax, Outcome(cws[t], picks[t - 1]));
    }
  }

  lemma {:induction false} OneCallKeepsFloor(cw: Weights, ks: seq<Entry>, wmax: nat, o: Outcome)
    requires Within(ks, wmax) && Floor(cw, wmax) && o == Next(cw, ks)
    ensures Floor(o.weights, wmax)
  {
    CallSettles(cw, ks);
    CallChooses(cw, ks);
    CallKeepsFloor(cw, ks, wmax, o);
  }

  // ----- conservation over the whole map -----

  /** The sum of all accumulators, of keys in the list or not. */
  ghost function MapSum(cw: Weights): int
    decreases |cw|
  {
    if cw == map[] then 0
    else
      var id :| id in cw;
      cw[id] + MapSum(cw - {id})
  }

  lemma {:induction false} MapSumAny(cw: Weights, id: string)
    requires id in cw
    ensures MapSum(cw) == cw[id] + MapSum(cw - {id})
    decreases |cw|
  {
    var first :| first in cw && MapSum(cw) == cw[first] + MapSum(cw - {first});
    if first != id {
      MapSumAny(cw - {first}, id);
      MapSumAny(cw - {id}, first);
      assert cw - {first} - {id} == cw - {id} - {first};
    }
  }

  lemma {:induction false} MapSumUpdate(cw: Weights, id: string, x: int)
    ensures MapSum(cw[id := x]) == MapSum(cw) - At(cw, id) + x
  {
    MapSumAny(cw[id := x], id);
    assert cw[id := x] - {id} == cw - {id};
    if id in cw {
      MapSumAny(cw, id);
    } else {
      assert cw - {id} == cw;
    }
  }

  lemma {:induction false} CreditSum(cw: Weights, ks: seq<Entry>)
    ensures MapSum(Credit(cw, ks)) == MapSum(cw) + Total(ks)
  {
    if ks != [] {
      var prefix, key := ks[..|ks| - 1], ks[|ks| - 1];
      CreditSum(cw, prefix);
      var before := Credit(cw, prefix);
      MapSumUpdate(before, key.id, At(before, key.id) + key.weight);
    }
  }

  lemma {:induction false} CallSum(cw: Weights, ks: seq<Entry>, o: Outcome)
    requires o == Next(cw, ks)
    ensures MapSum(o.weights) == MapSum(cw) + (if o.pick.None? then Total(ks) else 0)
  {
    CreditSum(cw, ks);
    var credited := Credit(cw, ks);
    if o.pick.Some? {
      var id := ks[o.pick.value].id;
      MapSumUpdate(credited, id, At(credited, id) - Total(ks));
    }
  }

  /** The total weight of the lists whose call returned nil. */
  function NilWeight(lists: seq<seq<Entry>>, picks: seq<Option<nat>>): int
    requires |lists| == |picks|
  {
    if lists == [] then 0
    else
      var last := |lists| - 1;
      NilWeight(lists[..last], picks[..last]) + (if picks[last].None? then Total(lists[last]) else 0)
  }

  /** The accumulators of the whole map add up to exactly what the calls that returned nil credited. */
  lemma {:induction false} SumIsNilWeight(lists: seq<seq<Entry>>, cws: seq<Weights>, picks: seq<Option<nat>>)
    requires Run(lists, cws, picks)
    ensures MapSum(cws[|lists|]) == NilWeight(lists, picks)
  {
    if lists != [] {
      var last := |lists| - 1;
      SumIsNilWeight(lists[..last], cws[..last + 1], picks[..last]);
      CallSum(cws[last], lists[last], Outcome(cws[last + 1], picks[last]));
    }
  }

  // ----- how long a list can get nil -----

  /** After t nils in a row on ks every listed accumulator has gained at least t. */
  lemma {:induction false} NilsCredit(ks: seq<Entry>, lists: seq<seq<Entry>>, cws: seq<Weights>,
          picks: seq<Option<nat>>, s: nat, t: nat, i: nat)
    requires Run(lists, cws, picks) && DistinctIds(ks) && Positive(ks) && i < |ks|
    requires s <= t <= |lists|
    requires forall u :: s <= u < t ==> lists[u] == ks && picks[u].None?
    ensures At(cws[t], ks[i].id) >= At(cws[s], ks[i].id) + (t - s)
  {
    if s < t {
      NilsCredit(ks, lists, cws, picks, s, t - 1, i);
      NilCredits(cws[t - 1], ks, Outcome(cws[t], picks[t - 1]), i);
    }
  }

  lemma {:induction false} NilCredits(cw: Weights, ks: seq<Entry>, o: Outcome, i: nat)
    requires DistinctIds(ks) && i < |ks| && o == Next(cw, ks) && o.pick.None?
    ensures At(o.weights, ks[i].id) == At(cw, ks[i].id) + ks[i].weight <= -1
  {
    CallSettles(cw, ks);
    CallChooses(cw, ks);
    assert Settles(cw, ks, o) && Chooses(cw, ks, o.pick);
  }

  /** One non-empty list gets nil at most wmax - 1 times in a row. */
  lemma {:induction false} FewNilsInARow(ks: seq<Entry>, lists: seq<seq<Entry>>, cws: seq<Weights>,
          picks: seq<Option<nat>>, wmax: nat, s: nat, t: nat)
    requires Run(lists, cws, picks) && ks != []
    requires forall u :: 0 <= u < |lists| ==> Within(lists[u], wmax)
    requires s < t <= |lists|
    requires forall u :: s <= u < t ==> lists[u] == ks && picks[u].None?
    ensures t - s <= wmax - 1
  {
    NeverBelowPool(lists, cws, picks, wmax, s);
    assert Within(lists[s], wmax);
    NilsCredit(ks, lists, cws, picks, s, t, 0);
    NilCredits(cws[t - 1], ks, Outcome(cws[t], picks[t - 1]), 0);
  }
}
