/**
 Smooth weighted round robin on values (internal/keypool/weightedrr.go).

 The accumulators are the map `currentWeights` from key ID to int; an ID that is
 not in the map reads as 0, as a Go map does. One call credits every listed key
 with its weight, picks the first key whose accumulator is largest (and above -1)
 and charges the pick with the total weight of the list.
 */
module WeightedRR {
  import opened Wrappers

  /** What Select reads of a pool key. */
  datatype Entry = Entry(id: string, weight: int)

  type Weights = map<string, int>

  datatype Outcome = Outcome(weights: Weights, pick: Option<nat>)

  function At(cw: Weights, id: string): int {
    if id in cw then cw[id] else 0
  }

  function Total(ks: seq<Entry>): int {
    if ks == [] then 0 else Total(ks[..|ks| - 1]) + ks[|ks| - 1].weight
  }

  /** First loop: every listed key gains its weight, left to right. */
  function Credit(cw: Weights, ks: seq<Entry>): Weights {
    if ks == [] then cw
    else
      var before := Credit(cw, ks[..|ks| - 1]);
      var key := ks[|ks| - 1];
      before[key.id := At(before, key.id) + key.weight]
  }

  /** Second loop: the first listed key with the largest accumulator, if that is above -1. */
  function Best(cw: Weights, ks: seq<Entry>): (best: Option<nat>)
    ensures best.Some? ==> best.value < |ks|
  {
    if ks == [] then None
    else
      var last := |ks| - 1;
      var best := Best(cw, ks[..last]);
      if At(cw, ks[last].id) > BestWeight(cw, ks, best) then Some(last) else best
  }

  function BestWeight(cw: Weights, ks: seq<Entry>, best: Option<nat>): int
    requires best.Some? ==> best.value < |ks|
  {
    if best.Some? then At(cw, ks[best.value].id) else -1
  }

  lemma {:induction false} BestMeans(cw: Weights, ks: seq<Entry>, best: Option<nat>)
    requires best == Best(cw, ks)
    ensures best.None? <==> forall i :: 0 <= i < |ks| ==> At(cw, ks[i].id) <= -1
    ensures best.Some? ==>
      && 0 <= At(cw, ks[best.value].id)
      && (forall i :: 0 <= i < |ks| ==> At(cw, ks[i].id) <= At(cw, ks[best.value].id))
      && (forall i :: 0 <= i < best.value ==> At(cw, ks[i].id) < At(cw, ks[best.value].id))
  {
    if ks != [] {
      var last := |ks| - 1;
      var prefix := ks[..last];
      assert forall i :: 0 <= i < last ==> prefix[i] == ks[i];
      BestMeans(cw, prefix, Best(cw, prefix));
    }
  }

  /** One call of Select. */
  function Next(cw: Weights, ks: seq<Entry>): Outcome {
    var credited := Credit(cw, ks);
    match Best(credited, ks)
    case None => Outcome(credited, None)
    case Some(i) =>
      Outcome(credited[ks[i].id := At(credited, ks[i].id) - Total(ks)], Some(i))
  }

  /** The functions above, one list position further: what each loop iteration does. */
  lemma {:induction false} CreditStep(cw: Weights, ks: seq<Entry>, i: nat)
    requires i < |ks|
    ensures Total(ks[..i + 1]) == Total(ks[..i]) + ks[i].weight
    ensures var before := Credit(cw, ks[..i]);
      Credit(cw, ks[..i + 1]) == before[ks[i].id := At(before, ks[i].id) + ks[i].weight]
  {
    assert ks[..i + 1][..i] == ks[..i];
  }

  lemma {:induction false} BestStep(cw: Weights, ks: seq<Entry>, i: nat)
    requires i < |ks|
    ensures Best(cw, ks[..i + 1])
         == if At(cw, ks[i].id) > BestWeight(cw, ks, Best(cw, ks[..i])) then Some(i) else Best(cw, ks[..i])
  {
    assert ks[..i + 1][..i] == ks[..i];
  }

  lemma {:induction false} NextOf(cw: Weights, ks: seq<Entry>, credited: Weights, best: Option<nat>)
    requires credited == Credit(cw, ks) && best == Best(credited, ks)
    ensures best.Some? ==> best.value < |ks|
    ensures Next(cw, ks) == if best.None? then Outcome(credited, None)
      else Outcome(credited[ks[best.value].id := At(credited, ks[best.value].id) - Total(ks)], best)
  {
  }

  ghost predicate DistinctIds(ks: seq<Entry>) {
    forall i, j :: 0 <= i < j < |ks| ==> ks[i].id != ks[j].id
  }

  ghost predicate Lists(ks: seq<Entry>, id: string) {
    exists i :: 0 <= i < |ks| && ks[i].id == id
  }

  lemma {:induction false} CreditAt(cw: Weights, ks: seq<Entry>)
    requires DistinctIds(ks)
    ensures forall i :: 0 <= i < |ks| ==> At(Credit(cw, ks), ks[i].id) == At(cw, ks[i].id) + ks[i].weight
    ensures forall id :: !Lists(ks, id) ==> At(Credit(cw, ks), id) == At(cw, id)
  {
    if ks != [] {
      var prefix := ks[..|ks| - 1];
      assert forall i :: 0 <= i < |prefix| ==> prefix[i] == ks[i];
      CreditAt(cw, prefix);
      forall id | !Lists(ks, id)
        ensures !Lists(prefix, id) && ks[|ks| - 1].id != id
      {
      }
      assert !Lists(prefix, ks[|ks| - 1].id);
    }
  }

  /** The charge touches the pick only. */
  lemma {:induction false} ChargeAt(credited: Weights, ks: seq<Entry>, total: int, o: Outcome)
    requires DistinctIds(ks)
    requires o.pick.Some? ==> o.pick.value < |ks|
    requires o.weights == match o.pick
      case None => credited
      case Some(i) => credited[ks[i].id := At(credited, ks[i].id) - total]
    ensures forall i :: 0 <= i < |ks| ==>
      At(o.weights, ks[i].id) == At(credited, ks[i].id) - (if o.pick == Some(i) then total else 0)
    ensures forall id :: !Lists(ks, id) ==> At(o.weights, id) == At(credited, id)
  {
    forall i | 0 <= i < |ks|
      ensures At(o.weights, ks[i].id) == At(credited, ks[i].id) - (if o.pick == Some(i) then total else 0)
    {
      if o.pick.Some? && i != o.pick.value {
        assert ks[i].id != ks[o.pick.value].id;
      }
    }
  }

  /**
   What one call of Select on a list with distinct IDs means, with no reference to the
   loops: every listed key gains its weight and the pick alone pays the total, key by key.
   */
  ghost predicate Settles(cw: Weights, ks: seq<Entry>, o: Outcome) {
    forall i :: 0 <= i < |ks| ==>
      At(o.weights, ks[i].id) == At(cw, ks[i].id) + ks[i].weight - (if o.pick == Some(i) then Total(ks) else 0)
  }

  /**
   Which key a call picks: nobody exactly when every credited accumulator is at most -1,
   otherwise the first of the largest credited accumulators, which is then at least 0.
   */
  ghost predicate Chooses(cw: Weights, ks: seq<Entry>, pick: Option<nat>) {
    && (pick.None? <==> forall i :: 0 <= i < |ks| ==> At(cw, ks[i].id) + ks[i].weight <= -1)
    && (pick.Some? ==>
          && pick.value < |ks|
          && 0 <= At(cw, ks[pick.value].id) + ks[pick.value].weight
          && (forall i :: 0 <= i < |ks| ==>
                At(cw, ks[i].id) + ks[i].weight <= At(cw, ks[pick.value].id) + ks[pick.value].weight)
          && (forall i :: 0 <= i < pick.value ==>
                At(cw, ks[i].id) + ks[i].weight < At(cw, ks[pick.value].id) + ks[pick.value].weight))
  }

  lemma {:induction false} CallSettles(cw: Weights, ks: seq<Entry>)
    requires DistinctIds(ks)
    ensures Settles(cw, ks, Next(cw, ks))
    ensures forall id :: !Lists(ks, id) ==> At(Next(cw, ks).weights, id) == At(cw, id)
  {
    CreditAt(cw, ks);
    ChargeAt(Credit(cw, ks), ks, Total(ks), Next(cw, ks));
  }

  lemma {:induction false} CallChooses(cw: Weights, ks: seq<Entry>)
    requires DistinctIds(ks)
    ensures Chooses(cw, ks, Next(cw, ks).pick)
  {
    CreditAt(cw, ks);
    BestMeans(Credit(cw, ks), ks, Best(Credit(cw, ks), ks));
  }

  /** The example in the strategy's own comment: A(3), B(1) gives A, A, B, A and then repeats. */
  lemma DocumentedPattern()
    ensures var ks := [Entry("A", 3), Entry("B", 1)];
      var s1 := Next(map[], ks);
      var s2 := Next(s1.weights, ks);
      var s3 := Next(s2.weights, ks);
      var s4 := Next(s3.weights, ks);
      && [s1.pick, s2.pick, s3.pick, s4.pick] == [Some(0), Some(0), Some(1), Some(0)]
      && At(s4.weights, "A") == 0 == At(s4.weights, "B")
  {
    var ks := [Entry("A", 3), Entry("B", 1)];
    assert "A" != "B" by { assert "A"[0] != "B"[0]; }
    assert ks[..1] == [Entry("A", 3)];
    assert Total([Entry("A", 3)]) == 3;
    var s1 := Next(map[], ks);
    TwoKeys(map[], ks, s1);
    var s2 := Next(s1.weights, ks);
    TwoKeys(s1.weights, ks, s2);
    var s3 := Next(s2.weights, ks);
    TwoKeys(s2.weights, ks, s3);
    TwoKeys(s3.weights, ks, Next(s3.weights, ks));
  }

  lemma {:induction false} TwoKeys(cw: Weights, ks: seq<Entry>, o: Outcome)
    requires |ks| == 2 && ks[0].id != ks[1].id
    requires o == Next(cw, ks)
    ensures var a := At(cw, ks[0].id) + ks[0].weight;
      var b := At(cw, ks[1].id) + ks[1].weight;
      && o.pick == (if a <= -1 && b <= -1 then None else if b <= a then Some(0) else Some(1))
      && At(o.weights, ks[0].id) == a - (if o.pick == Some(0) then Total(ks) else 0)
      && At(o.weights, ks[1].id) == b - (if o.pick == Some(1) then Total(ks) else 0)
  {
    CallSettles(cw, ks);
    CallChooses(cw, ks);
    assert Settles(cw, ks, o) && Chooses(cw, ks, o.pick);
  }
}
