/**
 Fairness of Select on a fixed list of keys, from accumulators that are all zero (as Reset
 leaves them): the map-based code is a run of the vector arithmetic in SmoothRounds, and its
 choice of the first largest key makes it periodic.

 Weights may be any non-negative ints with a positive total, which covers the weights of at
 least 1 that the weight endpoint enforces.
 */
module WeightedFairness {
  import opened Wrappers
  import opened WeightedRR
  import opened SmoothRounds

  /** A list the pool can hold: distinct IDs, no negative weight, some weight. */
  ghost predicate Fixed(ks: seq<Entry>) {
    && DistinctIds(ks)
    && (forall i :: 0 <= i < |ks| ==> 0 <= ks[i].weight)
    && 1 <= Total(ks)
  }

  function View(cw: WeightedRR.Weights, ks: seq<Entry>): (a: seq<int>)
    ensures |a| == |ks|
    ensures forall i :: 0 <= i < |a| ==> a[i] == At(cw, ks[i].id)
  {
    seq(|ks|, i requires 0 <= i < |ks| => At(cw, ks[i].id))
  }

  function WeightsOf(ks: seq<Entry>): (w: seq<int>)
    ensures |w| == |ks|
    ensures forall i :: 0 <= i < |w| ==> w[i] == ks[i].weight
  {
    seq(|ks|, i requires 0 <= i < |ks| => ks[i].weight)
  }

  lemma {:induction false} TotalIsSum(ks: seq<Entry>)
    ensures Total(ks) == Sum(WeightsOf(ks))
  {
    if ks != [] {
      TotalIsSum(ks[..|ks| - 1]);
      assert WeightsOf(ks)[..|ks| - 1] == WeightsOf(ks[..|ks| - 1]);
    }
  }

  /** When the accumulators add up to 0, some credited one is positive, so the call picks. */
  lemma {:induction false} SomeonePicked(a: seq<int>, w: seq<int>)
    requires |a| == |w| && Sum(a) == 0 && 1 <= Sum(w)
    ensures exists i :: 0 <= i < |a| && 0 <= a[i] + w[i]
  {
    if forall i :: 0 <= i < |a| ==> a[i] + w[i] <= -1 {
      SumAdd(a, w, Credited(a, w));
      SumAtMost(Credited(a, w), -1);
    }
  }

  /** On accumulators that add up to 0, a call of Select is exactly one vector step. */
  lemma {:induction false} CallIsVStep(cw: WeightedRR.Weights, ks: seq<Entry>, o: Outcome)
    requires Fixed(ks) && Sum(View(cw, ks)) == 0
    requires Settles(cw, ks, o) && Chooses(cw, ks, o.pick)
    ensures o.pick.Some? && Largest(View(cw, ks), WeightsOf(ks), o.pick.value)
    ensures View(o.weights, ks) == VStep(View(cw, ks), WeightsOf(ks), o.pick.value)
  {
    TotalIsSum(ks);
    var a, w := View(cw, ks), WeightsOf(ks);
    SomeonePicked(a, w);
    var i :| 0 <= i < |a| && 0 <= a[i] + w[i];
    assert !(At(cw, ks[i].id) + ks[i].weight <= -1);
    assert o.pick.Some?;
    var j := o.pick.value;
    assert Largest(a, w, j) by {
      forall k | 0 <= k < |a|
        ensures a[k] + w[k] <= a[j] + w[j]
      {
        assert At(cw, ks[k].id) + ks[k].weight <= At(cw, ks[j].id) + ks[j].weight;
      }
    }
    var b, c := View(o.weights, ks), VStep(a, w, j);
    forall k | 0 <= k < |a|
      ensures b[k] == c[k]
    {
      assert At(o.weights, ks[k].id) == At(cw, ks[k].id) + ks[k].weight - (if o.pick == Some(k) then Total(ks) else 0);
    }
  }

  // ----- runs of calls -----

  /** One call of Select on ks takes the accumulators cw to after and returns pick. */
  ghost predicate Call(cw: WeightedRR.Weights, ks: seq<Entry>, pick: Option<nat>, after: WeightedRR.Weights) {
    Settles(cw, ks, Outcome(after, pick)) && Chooses(cw, ks, pick)
  }

  /** A run of |picks| calls of Select on ks, through the accumulator maps cws. */
  ghost predicate Calls(ks: seq<Entry>, cws: seq<WeightedRR.Weights>, picks: seq<Option<nat>>) {
    && |cws| == |picks| + 1
    && View(cws[0], ks) == Zeros(|ks|)
    && forall t :: 0 <= t < |picks| ==> Call(cws[t], ks, picks[t], cws[t + 1])
  }

  function Indexes(picks: seq<Option<nat>>): (js: seq<nat>)
    ensures |js| == |picks|
  {
    seq(|picks|, t requires 0 <= t < |picks| => if picks[t].Some? then picks[t].value else 0)
  }

  /** How many of the picks are key i. */
  function Picks(picks: seq<Option<nat>>, i: nat): nat {
    if picks == [] then 0
    else Picks(picks[..|picks| - 1], i) + (if picks[|picks| - 1] == Some(i) then 1 else 0)
  }

  lemma {:induction false} PicksAreCounts(picks: seq<Option<nat>>, i: nat)
    requires forall t :: 0 <= t < |picks| ==> picks[t].Some?
    ensures Count(Indexes(picks), i) == Picks(picks, i)
  {
    if picks != [] {
      PicksAreCounts(picks[..|picks| - 1], i);
      assert Indexes(picks)[..|picks| - 1] == Indexes(picks[..|picks| - 1]);
    }
  }

  /** The first t calls are a run of the vector arithmetic, and cw is what it leads to. */
  ghost predicate RunsTo(ks: seq<Entry>, picks: seq<Option<nat>>, cw: WeightedRR.Weights) {
    && Run(WeightsOf(ks), Indexes(picks))
    && View(cw, ks) == Acc(WeightsOf(ks), Indexes(picks))
    && forall s :: 0 <= s < |picks| ==> picks[s].Some? && picks[s].value < |ks|
  }

  lemma {:induction false} IndexesAppend(picks: seq<Option<nat>>, pick: nat)
    ensures Indexes(picks + [Some(pick)]) == Indexes(picks) + [pick]
  {
  }

  lemma {:induction false} RunsOn(ks: seq<Entry>, picks: seq<Option<nat>>, cw: WeightedRR.Weights, pick: Option<nat>,
          after: WeightedRR.Weights)
    requires Fixed(ks) && RunsTo(ks, picks, cw) && Call(cw, ks, pick, after)
    ensures RunsTo(ks, picks + [pick], after)
  {
    OneMoreCall(ks, cw, Indexes(picks), pick, after);
    IndexesAppend(picks, pick.value);
  }

  lemma {:induction false} RunsFromStart(ks: seq<Entry>, cw: WeightedRR.Weights)
    requires View(cw, ks) == Zeros(|ks|)
    ensures RunsTo(ks, [], cw)
  {
    assert Indexes([]) == [];
  }

  lemma {:induction false} RunUpToNext(ks: seq<Entry>, cws: seq<WeightedRR.Weights>, picks: seq<Option<nat>>, t: nat)
    requires Fixed(ks) && Calls(ks, cws, picks) && t < |picks| && RunsTo(ks, picks[..t], cws[t])
    ensures RunsTo(ks, picks[..t + 1], cws[t + 1])
  {
    assert Call(cws[t], ks, picks[t], cws[t + 1]);
    RunsOn(ks, picks[..t], cws[t], picks[t], cws[t + 1]);
    assert picks[..t + 1] == picks[..t] + [picks[t]];
  }

  lemma {:induction false} RunUpTo(ks: seq<Entry>, cws: seq<WeightedRR.Weights>, picks: seq<Option<nat>>, t: nat)
    requires Fixed(ks) && Calls(ks, cws, picks) && t <= |picks|
    ensures RunsTo(ks, picks[..t], cws[t])
  {
    if t == 0 {
      RunsFromStart(ks, cws[0]);
    } else {
      RunUpTo(ks, cws, picks, t - 1);
      RunUpToNext(ks, cws, picks, t - 1);
    }
  }

  /** Every run of calls is a run of the vector arithmetic, and every call picks a key. */
  lemma {:induction false} CallsAreARun(ks: seq<Entry>, cws: seq<WeightedRR.Weights>, picks: seq<Option<nat>>)
    requires Fixed(ks) && Calls(ks, cws, picks)
    ensures Run(WeightsOf(ks), Indexes(picks))
    ensures View(cws[|picks|], ks) == Acc(WeightsOf(ks), Indexes(picks))
    ensures forall t :: 0 <= t < |picks| ==> picks[t].Some? && picks[t].value < |ks|
  {
    RunUpTo(ks, cws, picks, |picks|);
    assert picks[..|picks|] == picks;
  }

  lemma {:induction false} OneMoreCall(ks: seq<Entry>, cw: WeightedRR.Weights, js: seq<nat>, pick: Option<nat>,
          after: WeightedRR.Weights)
    requires Fixed(ks) && Run(WeightsOf(ks), js)
    requires View(cw, ks) == Acc(WeightsOf(ks), js) && Call(cw, ks, pick, after)
    ensures pick.Some? && pick.value < |ks|
    ensures Run(WeightsOf(ks), js + [pick.value])
    ensures View(after, ks) == Acc(WeightsOf(ks), js + [pick.value])
  {
    Conserved(WeightsOf(ks), js);
    CallIsVStep(cw, ks, Outcome(after, pick));
    assert (js + [pick.value])[..|js|] == js;
  }

  /** The i-th prefix of a run is a run. */
  lemma {:induction false} PrefixOfCalls(ks: seq<Entry>, cws: seq<WeightedRR.Weights>, picks: seq<Option<nat>>, t: nat)
    requires Calls(ks, cws, picks) && t <= |picks|
    ensures Calls(ks, cws[..t + 1], picks[..t])
  {
  }

  lemma {:induction false} IsWeights(ks: seq<Entry>)
    requires Fixed(ks)
    ensures SmoothRounds.Weights(WeightsOf(ks)) && Sum(WeightsOf(ks)) == Total(ks)
  {
    TotalIsSum(ks);
  }

  /** A fixed list never gets nil. */
  lemma {:induction false} NeverNil(ks: seq<Entry>, cws: seq<WeightedRR.Weights>, picks: seq<Option<nat>>, t: nat)
    requires Fixed(ks) && Calls(ks, cws, picks) && t < |picks|
    ensures picks[t].Some? && picks[t].value < |ks|
  {
    CallsAreARun(ks, cws, picks);
  }

  /** Bounded lead after t calls: picks - t * w / W is at most 1 - 1/n. */
  lemma {:induction false} Lead(ks: seq<Entry>, cws: seq<WeightedRR.Weights>, picks: seq<Option<nat>>, i: nat)
    requires Fixed(ks) && Calls(ks, cws, picks) && i < |ks|
    ensures LeadAtMost(|ks|, Total(ks), |picks|, ks[i].weight, Picks(picks, i))
  {
    CallsAreARun(ks, cws, picks);
    IsWeights(ks);
    PicksAreCounts(picks, i);
    LeadBound(WeightsOf(ks), Indexes(picks), i);
  }

  /** Harmonic lag after t calls: t * w / W - picks is at most 1/2 + 1/3 + ... + 1/n. */
  lemma {:induction false} Lag(ks: seq<Entry>, cws: seq<WeightedRR.Weights>, picks: seq<Option<nat>>, i: nat)
    requires Fixed(ks) && Calls(ks, cws, picks) && i < |ks|
    ensures IdealShare(|picks|, ks[i].weight, Total(ks)) - Picks(picks, i) as real <= HarmonicTail(1, |ks|)
  {
    CallsAreARun(ks, cws, picks);
    IsWeights(ks);
    PicksAreCounts(picks, i);
    LagBound(WeightsOf(ks), Indexes(picks), i);
  }

  /** Exact proportionality: W calls pick key i exactly w_i times and zero every accumulator. */
  lemma {:induction false} Proportional(ks: seq<Entry>, cws: seq<WeightedRR.Weights>, picks: seq<Option<nat>>)
    requires Fixed(ks) && Calls(ks, cws, picks) && |picks| == Total(ks)
    ensures forall i :: 0 <= i < |ks| ==> Picks(picks, i) == ks[i].weight
    ensures View(cws[|picks|], ks) == Zeros(|ks|)
  {
    CallsAreARun(ks, cws, picks);
    IsWeights(ks);
    ExactShares(WeightsOf(ks), Indexes(picks));
    forall i | 0 <= i < |ks|
      ensures Picks(picks, i) == ks[i].weight
    {
      PicksAreCounts(picks, i);
    }
  }

  /** What a call does to a list depends on the map only through the accumulators of that list. */
  lemma {:induction false} OnlyViewMatters(ks: seq<Entry>, cw: WeightedRR.Weights, pick: Option<nat>,
          after: WeightedRR.Weights, dw: WeightedRR.Weights, qick: Option<nat>, later: WeightedRR.Weights)
    requires View(cw, ks) == View(dw, ks)
    requires Call(cw, ks, pick, after) && Call(dw, ks, qick, later)
    ensures pick == qick && View(after, ks) == View(later, ks)
  {
    var a, b := View(cw, ks), View(dw, ks);
    forall i | 0 <= i < |ks|
      ensures At(cw, ks[i].id) == At(dw, ks[i].id)
    {
      assert a[i] == b[i];
    }
  }

  lemma {:induction false} FirstPeriod(ks: seq<Entry>, cws: seq<WeightedRR.Weights>, picks: seq<Option<nat>>, u: nat)
    requires Fixed(ks) && Calls(ks, cws, picks) && u == Total(ks) <= |picks|
    ensures View(cws[0], ks) == View(cws[u], ks)
  {
    PrefixOfCalls(ks, cws, picks, u);
    Proportional(ks, cws[..u + 1], picks[..u]);
  }

  lemma {:induction false} StateRepeats(ks: seq<Entry>, cws: seq<WeightedRR.Weights>, picks: seq<Option<nat>>,
          t: nat, u: nat)
    requires Fixed(ks) && Calls(ks, cws, picks)
    requires u == t + Total(ks) <= |picks|
    ensures View(cws[t], ks) == View(cws[u], ks)
  {
    if t == 0 {
      FirstPeriod(ks, cws, picks, u);
    } else {
      StateRepeats(ks, cws, picks, t - 1, u - 1);
      CallRepeats(ks, cws, picks, t - 1, u - 1);
    }
  }

  lemma {:induction false} CallRepeats(ks: seq<Entry>, cws: seq<WeightedRR.Weights>, picks: seq<Option<nat>>, t: nat,
          u: nat)
    requires Calls(ks, cws, picks) && t < |picks| && u < |picks|
    requires View(cws[t], ks) == View(cws[u], ks)
    ensures picks[t] == picks[u] && View(cws[t + 1], ks) == View(cws[u + 1], ks)
  {
    assert Call(cws[t], ks, picks[t], cws[t + 1]) && Call(cws[u], ks, picks[u], cws[u + 1]);
    OnlyViewMatters(ks, cws[t], picks[t], cws[t + 1], cws[u], picks[u], cws[u + 1]);
  }

  /** Full periodicity: the selection sequence has period W. */
  lemma {:induction false} Periodic(ks: seq<Entry>, cws: seq<WeightedRR.Weights>, picks: seq<Option<nat>>, t: nat)
    requires Fixed(ks) && Calls(ks, cws, picks) && t + Total(ks) < |picks|
    ensures picks[t + Total(ks)] == picks[t]
  {
    StateRepeats(ks, cws, picks, t, t + Total(ks));
    CallRepeats(ks, cws, picks, t, t + Total(ks));
  }

  /** Every window of W calls, aligned or not, picks key i exactly w_i times. */
  lemma {:induction false} EveryWindow(ks: seq<Entry>, cws: seq<WeightedRR.Weights>, picks: seq<Option<nat>>, t: nat,
          u: nat, i: nat)
    requires Fixed(ks) && Calls(ks, cws, picks) && i < |ks|
    requires u == t + Total(ks) <= |picks|
    ensures Picks(picks[t..u], i) == ks[i].weight
  {
    if t == 0 {
      PrefixOfCalls(ks, cws, picks, u);
      Proportional(ks, cws[..u + 1], picks[..u]);
    } else {
      EveryWindow(ks, cws, picks, t - 1, u - 1, i);
      Periodic(ks, cws, picks, t - 1);
      SlideWindow(picks, t - 1, u - 1, i);
    }
  }

  lemma {:induction false} SlideWindow(picks: seq<Option<nat>>, t: nat, u: nat, i: nat)
    requires t < u < |picks| && picks[t] == picks[u]
    ensures Picks(picks[t..u], i) == Picks(picks[t + 1..u + 1], i)
  {
    DropFirst(picks[t..u], i);
    assert picks[t..u][1..] == picks[t + 1..u];
    assert picks[t + 1..u + 1][..u - t - 1] == picks[t + 1..u];
  }

  lemma {:induction false} DropFirst(picks: seq<Option<nat>>, i: nat)
    requires picks != []
    ensures Picks(picks, i) == (if picks[0] == Some(i) then 1 else 0) + Picks(picks[1..], i)
  {
    var last := |picks| - 1;
    if last != 0 {
      DropFirst(picks[..last], i);
      assert picks[..last][1..] == picks[1..][..last - 1];
    } else {
      assert picks[..0] == [] && picks[1..] == [];
    }
  }

  // ----- the code's own runs -----

  /** The accumulator maps that t calls of Next on ks go through, from Reset. */
  function States(ks: seq<Entry>, t: nat): (cws: seq<WeightedRR.Weights>)
    ensures |cws| == t + 1
  {
    if t == 0 then [map[]]
    else var before := States(ks, t - 1); before + [Next(before[t - 1], ks).weights]
  }

  function PicksFrom(ks: seq<Entry>, cws: seq<WeightedRR.Weights>): (picks: seq<Option<nat>>)
    requires cws != []
    ensures |picks| == |cws| - 1
  {
    seq(|cws| - 1, t requires 0 <= t < |cws| - 1 => Next(cws[t], ks).pick)
  }

  lemma {:induction false} NextIsCall(cw: WeightedRR.Weights, ks: seq<Entry>)
    requires DistinctIds(ks)
    ensures Call(cw, ks, Next(cw, ks).pick, Next(cw, ks).weights)
  {
    CallSettles(cw, ks);
    CallChooses(cw, ks);
  }

  lemma {:induction false} StatesStep(ks: seq<Entry>, t: nat, s: nat)
    requires s < t
    ensures States(ks, t)[s + 1] == Next(States(ks, t)[s], ks).weights
    ensures States(ks, t)[0] == map[]
  {
    if s + 1 < t {
      StatesStep(ks, t - 1, s);
    } else if 0 < s {
      StatesStep(ks, t - 1, s - 1);
    }
  }

  /** Calling Select t times from Reset is a run, so every theorem above applies to it. */
  lemma {:induction false} SelectRuns(ks: seq<Entry>, t: nat)
    requires DistinctIds(ks)
    ensures Calls(ks, States(ks, t), PicksFrom(ks, States(ks, t)))
  {
    var cws := States(ks, t);
    forall s | 0 <= s < t
      ensures Call(cws[s], ks, Next(cws[s], ks).pick, cws[s + 1])
    {
      StatesStep(ks, t, s);
      NextIsCall(cws[s], ks);
    }
    if 0 < t {
      StatesStep(ks, t, 0);
    }
    assert View(map[], ks) == Zeros(|ks|);
  }
}
