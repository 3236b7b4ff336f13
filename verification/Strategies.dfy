/**
 The two selection strategies as the objects the pool holds (internal/keypool/roundrobin.go and
 internal/keypool/weightedrr.go), each proved against its function.
 */
module Strategies {
  import opened Wrappers
  import opened PoolKeys
  import opened WeightedRR
  import RoundRobin

  /** What Select reads of the keys. */
  function Entries(keys: seq<PoolKey>): (ks: seq<Entry>)
    reads keys
    ensures |ks| == |keys|
    ensures forall i :: 0 <= i < |keys| ==> ks[i] == Entry(keys[i].ID, keys[i].Weight)
  {
    seq(|keys|, i requires 0 <= i < |keys| reads keys => Entry(keys[i].ID, keys[i].Weight))
  }

  function Picked(keys: seq<PoolKey>, pick: Option<nat>): PoolKey?
    requires pick.Some? ==> pick.value < |keys|
  {
    if pick.Some? then keys[pick.value] else null
  }

  class RoundRobinStrategy {
    var counter: nat

    ghost predicate Valid()
      reads this
    {
      counter < RoundRobin.TWO_64
    }

    constructor ()
      ensures Valid() && counter == 0
    {
      counter := 0;
    }

    method Select(keys: seq<PoolKey>) returns (selected: PoolKey?)
      requires Valid()
      modifies this
      ensures Valid()
      ensures keys == [] ==> selected == null && counter == old(counter)
      ensures keys != [] ==>
        && selected == keys[RoundRobin.PickAt(old(counter), 0, |keys|)]
        && counter == RoundRobin.Advance(old(counter))
      ensures keys != [] ==>
        && selected == keys[old(counter) % |keys|]
        && counter == (old(counter) + 1) % 0x1_0000_0000_0000_0000
    {
      if |keys| == 0 {
        return null;
      }
      RoundRobin.NoWrap(counter);
      var idx := counter % |keys|;
      counter := (counter + 1) % RoundRobin.TWO_64;
      return keys[idx];
    }

    method Reset()
      modifies this
      ensures Valid() && counter == 0
    {
      counter := 0;
    }
  }

  class WeightedRoundRobinStrategy {
    var currentWeights: Weights

    constructor ()
      ensures currentWeights == map[]
    {
      currentWeights := map[];
    }

    /** First loop of Select: credit every key and add the weights up. */
    method CreditAll(keys: seq<PoolKey>) returns (totalWeight: int)
      modifies this
      ensures currentWeights == Credit(old(currentWeights), old(Entries(keys)))
      ensures totalWeight == Total(old(Entries(keys)))
    {
      ghost var ks := Entries(keys);
      totalWeight := 0;
      for i := 0 to |keys|
        invariant totalWeight == Total(ks[..i])
        invariant currentWeights == Credit(old(currentWeights), ks[..i])
      {
        assert ks[i] == Entry(keys[i].ID, keys[i].Weight);
        CreditStep(old(currentWeights), ks, i);
        totalWeight := totalWeight + keys[i].Weight;
        currentWeights := currentWeights[keys[i].ID := At(currentWeights, keys[i].ID) + keys[i].Weight];
      }
      assert ks[..|keys|] == ks;
    }

    /** Second loop of Select: the first key with the largest accumulator above -1. */
    method FindHighest(keys: seq<PoolKey>) returns (selected: PoolKey?)
      ensures selected == Picked(keys, Best(currentWeights, Entries(keys)))
    {
      ghost var ks := Entries(keys);
      selected := null;
      var maxWeight := -1;
      ghost var best: Option<nat> := None;
      for i := 0 to |keys|
        invariant best == Best(currentWeights, ks[..i])
        invariant selected == Picked(keys, best)
        invariant maxWeight == BestWeight(currentWeights, ks, best)
      {
        BestStep(currentWeights, ks, i);
        if At(currentWeights, keys[i].ID) > maxWeight {
          maxWeight := At(currentWeights, keys[i].ID);
          selected := keys[i];
          best := Some(i);
        }
      }
      assert ks[..|keys|] == ks;
    }

    /** One call is one step of the scheduler on the accumulators. */
    method Select(keys: seq<PoolKey>) returns (selected: PoolKey?)
      modifies this
      ensures var o := Next(old(currentWeights), old(Entries(keys)));
        currentWeights == o.weights && selected == Picked(keys, o.pick)
    {
      ghost var ks := Entries(keys);
      if |keys| == 0 {
        NextOf(currentWeights, ks, currentWeights, None);
        return null;
      }
      var totalWeight := CreditAll(keys);
      assert Entries(keys) == ks;
      selected := FindHighest(keys);
      NextOf(old(currentWeights), ks, currentWeights, Best(currentWeights, ks));
      if selected == null {
        return null;
      }
      currentWeights := currentWeights[selected.ID := At(currentWeights, selected.ID) - totalWeight];
    }

    method Reset()
      modifies this
      ensures currentWeights == map[]
    {
      currentWeights := map[];
    }
  }
}
