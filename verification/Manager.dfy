/** The key pool: GetKey, reload and strategy switch (internal/keypool/manager.go). */
module Managers {
  import opened Wrappers
  import opened CircuitBreakers
  import opened PoolKeys
  import opened Strategies
  import A = Acquisition
  import RateLimits
  import RoundRobin
  import WeightedRR

  const ROUND_ROBIN := "round_robin"
  const WEIGHTED := "weighted_round_robin"

  /** Distinct objects, which distinct IDs imply. */
  ghost predicate Distinct(keys: seq<PoolKey>) {
    forall i, j :: 0 <= i < j < |keys| ==> keys[i].ID != keys[j].ID
  }

  ghost predicate OwnBreakers(keys: seq<PoolKey>) {
    forall k, l :: k in keys && l in keys && k != l && k.circuitBreaker != null ==> k.circuitBreaker != l.circuitBreaker
  }

  function Breakers(keys: seq<PoolKey>): set<CircuitBreaker> {
    set k | k in keys && k.circuitBreaker != null :: k.circuitBreaker
  }

  /** The breaker of k lets it through at `now`: the history rule, or no breaker at all. */
  ghost predicate LetThrough(k: PoolKey, now: int)
    reads k.circuitBreaker
  {
    k.circuitBreaker == null || CircuitBreakers.Admits(k.circuitBreaker.cfg, k.circuitBreaker.history, now)
  }

  /** The keys GetKey puts on its list, in pool order. */
  ghost function Admitted(keys: seq<PoolKey>, now: int): seq<PoolKey>
    reads Breakers(keys)
  {
    if keys == [] then []
    else Admitted(keys[..|keys| - 1], now) + (if LetThrough(keys[|keys| - 1], now) then [keys[|keys| - 1]] else [])
  }

  lemma {:induction false} AdmittedAreKeys(keys: seq<PoolKey>, now: int)
    ensures forall i :: 0 <= i < |Admitted(keys, now)| ==>
      Admitted(keys, now)[i] in keys && LetThrough(Admitted(keys, now)[i], now)
    ensures forall i :: 0 <= i < |keys| && LetThrough(keys[i], now) ==> keys[i] in Admitted(keys, now)
  {
    if keys != [] {
      var last := |keys| - 1;
      AdmittedAreKeys(keys[..last], now);
      forall i | 0 <= i < |keys| && LetThrough(keys[i], now)
        ensures keys[i] in Admitted(keys, now)
      {
        if i < last {
          assert keys[..last][i] == keys[i];
        }
      }
    }
  }

  lemma {:induction false} AdmittedDistinct(keys: seq<PoolKey>, now: int)
    requires Distinct(keys)
    ensures Distinct(Admitted(keys, now))
  {
    if keys != [] {
      var last := |keys| - 1;
      AdmittedDistinct(keys[..last], now);
      AdmittedAreKeys(keys[..last], now);
      var before := Admitted(keys[..last], now);
      forall i | 0 <= i < |before|
        ensures before[i].ID != keys[last].ID
      {
        assert before[i] in keys[..last];
      }
    }
  }

  /** Both limits of k would let it be taken at `now`. */
  predicate Acquirable(k: PoolKey, now: int)
    reads k
  {
    k.HasSlot() && RateLimits.Grants(k.Limiter(), k.Limits(), now)
  }

  function Candidates(keys: seq<PoolKey>, now: int): (cands: seq<A.Candidate>)
    reads keys
    ensures |cands| == |keys|
    ensures forall i :: 0 <= i < |keys| ==>
      cands[i] == A.Candidate(keys[i].ID, keys[i].Weight, Acquirable(keys[i], now))
  {
    seq(|keys|, i requires 0 <= i < |keys| reads keys =>
      A.Candidate(keys[i].ID, keys[i].Weight, Acquirable(keys[i], now)))
  }

  /** A row of the api_keys table. */
  datatype Row = Row(id: string, weight: int, perMinute: int, perDay: int, concurrentLimit: int)

  ghost predicate DistinctRows(rows: seq<Row>) {
    forall i, j :: 0 <= i < j < |rows| ==> rows[i].id != rows[j].id
  }

  /** k carries the configuration of a row. */
  predicate Configured(k: PoolKey, row: Row)
    reads k
  {
    && k.ID == row.id && k.Weight == row.weight
    && k.RateLimitPerMinute == row.perMinute && k.RateLimitPerDay == row.perDay
    && k.ConcurrentLimit == row.concurrentLimit
  }

  /** A key that was created for a row that had none. */
  ghost predicate IsNew(k: PoolKey, settings: Settings)
    reads k, k.circuitBreaker
  {
    && k.currentConcurrent == 0 && k.Limiter() == RateLimits.FRESH
    && k.circuitBreaker != null && k.circuitBreaker.Valid()
    && k.circuitBreaker.cfg == settings && k.circuitBreaker.history == []
  }

  /** A list without the given key. */
  function Without(keys: seq<PoolKey>, target: PoolKey): seq<PoolKey> {
    if keys == [] then []
    else Without(keys[..|keys| - 1], target) + (if keys[|keys| - 1] != target then [keys[|keys| - 1]] else [])
  }

  lemma {:induction false} WithoutAbsent(keys: seq<PoolKey>, target: PoolKey)
    requires target !in keys
    ensures Without(keys, target) == keys
  {
    if keys != [] {
      WithoutAbsent(keys[..|keys| - 1], target);
    }
  }

  lemma {:induction false} WithoutIsRemoveAt(keys: seq<PoolKey>, i: nat)
    requires i < |keys| && Distinct(keys)
    ensures Without(keys, keys[i]) == RemoveAt(keys, i)
  {
    var last := |keys| - 1;
    if i == last {
      WithoutAbsent(keys[..last], keys[i]);
    } else {
      WithoutIsRemoveAt(keys[..last], i);
      assert keys[last] != keys[i];
    }
  }

  method RemoveKey(keys: seq<PoolKey>, target: PoolKey) returns (result: seq<PoolKey>)
    ensures result == Without(keys, target)
  {
    result := [];
    for i := 0 to |keys|
      invariant result == Without(keys[..i], target)
    {
      assert keys[..i + 1][..i] == keys[..i];
      if keys[i] != target {
        result := result + [keys[i]];
      }
    }
    assert keys[..|keys|] == keys;
  }

  /** The two limit checks of GetKey's loop on one key, with the rollback between them. */
  method TryKey(selected: PoolKey, now: int) returns (ok: bool)
    modifies selected`currentConcurrent, selected`minuteCounter, selected`dayCounter, selected`minuteResetAt,
      selected`dayResetAt
    ensures ok <==> old(Acquirable(selected, now))
    ensures selected.State() == Touched(old(selected.State()), now, ok, true)
    ensures
      var minute := if now > old(selected.minuteResetAt) then 0 else old(selected.minuteCounter);
      var day := if now > old(selected.dayResetAt) then 0 else old(selected.dayCounter);
      && (ok <==>
            && old(selected.currentConcurrent) < selected.ConcurrentLimit
            && minute < selected.RateLimitPerMinute && day < selected.RateLimitPerDay)
      && selected.currentConcurrent == old(selected.currentConcurrent) + (if ok then 1 else 0)
      && (old(selected.currentConcurrent) < selected.ConcurrentLimit ==>
            && selected.minuteCounter == minute + (if ok then 1 else 0)
            && selected.dayCounter == day + (if ok then 1 else 0))
    ensures old(selected.currentConcurrent) >= selected.ConcurrentLimit ==>
      && selected.minuteCounter == old(selected.minuteCounter) && selected.dayCounter == old(selected.dayCounter)
      && selected.minuteResetAt == old(selected.minuteResetAt) && selected.dayResetAt == old(selected.dayResetAt)
  {
    ok := selected.TryConcurrentAcquire();
    if !ok {
      return;
    }
    ok := selected.TryRateLimit(now);
    if !ok {
      selected.ConcurrentRelease();
    }
  }

  /** Tries one listed key, and drops it from the list when it is refused. */
  method TryOrDrop(available: seq<PoolKey>, ghost i: nat, selected: PoolKey, now: int)
    returns (ok: bool, rest: seq<PoolKey>)
    requires Distinct(available) && i < |available| && selected == available[i]
    modifies selected`currentConcurrent, selected`minuteCounter, selected`dayCounter, selected`minuteResetAt,
      selected`dayResetAt
    ensures ok <==> old(Acquirable(selected, now))
    ensures selected.State() == Touched(old(selected.State()), now, ok, true)
    ensures !ok ==>
      rest == RemoveAt(available, i) && Candidates(rest, now) == RemoveAt(old(Candidates(available, now)), i)
  {
    ghost var left := RemoveAt(Candidates(available, now), i);
    ok := TryKey(selected, now);
    rest := available;
    if !ok {
      rest := RemoveKey(available, selected);
      WithoutIsRemoveAt(available, i);
      forall k | 0 <= k < |rest|
        ensures Candidates(rest, now)[k] == left[k]
      {
        assert rest[k] != selected;
      }
    }
  }

  lemma {:induction false} SameIdSameKey(keys: seq<PoolKey>, k: PoolKey, l: PoolKey)
    requires Distinct(keys) && k in keys && l in keys
    ensures k.ID == l.ID ==> k == l
  {
  }

  lemma {:induction false} RestStillOpen(available: seq<PoolKey>, rest: seq<PoolKey>, admitted: seq<PoolKey>,
          refused: seq<string>, k: PoolKey)
    requires Distinct(admitted) && StillOpen(available, admitted, refused) && k in admitted
    requires Distinct(rest) && forall l :: l in rest ==> l in available && l != k
    ensures StillOpen(rest, admitted, refused + [k.ID])
  {
    forall l | l in rest
      ensures l.ID !in refused + [k.ID]
    {
      SameIdSameKey(admitted, l, k);
    }
  }

  lemma {:induction false} RestIsDistinct(keys: seq<PoolKey>, i: nat)
    requires i < |keys| && Distinct(keys)
    ensures Distinct(RemoveAt(keys, i))
    ensures forall k :: k in RemoveAt(keys, i) ==> k in keys && k != keys[i]
  {
  }

  /** Takes the configuration of a row over, and nothing else. */
  method Configure(k: PoolKey, row: Row)
    requires k.ID == row.id
    modifies k`Weight, k`RateLimitPerMinute, k`RateLimitPerDay, k`ConcurrentLimit
    ensures Configured(k, row)
  {
    k.Weight := row.weight;
    k.RateLimitPerMinute := row.perMinute;
    k.RateLimitPerDay := row.perDay;
    k.ConcurrentLimit := row.concurrentLimit;
  }

  function Known(existing: map<string, PoolKey>, id: string): set<PoolKey> {
    if id in existing then {existing[id]} else {}
  }

  /** The object for a row: the one the pool has, with the row's configuration, or a new one. */
  method KeyFor(row: Row, existing: map<string, PoolKey>, settings: Settings) returns (key: PoolKey)
    requires 1 <= settings.failureThreshold
    requires row.id in existing ==> existing[row.id].ID == row.id
    modifies Known(existing, row.id)`Weight, Known(existing, row.id)`RateLimitPerMinute
    modifies Known(existing, row.id)`RateLimitPerDay, Known(existing, row.id)`ConcurrentLimit
    ensures Configured(key, row)
    ensures row.id in existing ==> key == existing[row.id]
    ensures row.id !in existing ==> fresh(key) && IsNew(key, settings) && fresh(key.circuitBreaker)
  {
    if row.id in existing {
      key := existing[row.id];
      Configure(key, row);
    } else {
      var breaker := new CircuitBreaker(settings);
      key := new PoolKey(row.id, row.weight, row.perMinute, row.perDay, row.concurrentLimit, breaker);
    }
  }

  /** The objects for all rows, in row order. */
  method BuildKeys(rows: seq<Row>, ghost keys: seq<PoolKey>, existing: map<string, PoolKey>, settings: Settings)
    returns (newKeys: seq<PoolKey>)
    requires DistinctRows(rows) && OwnBreakers(keys) && 1 <= settings.failureThreshold
    requires forall id :: id in existing ==> existing[id] in keys && existing[id].ID == id
    modifies KeySet(keys)`Weight, KeySet(keys)`RateLimitPerMinute, KeySet(keys)`RateLimitPerDay,
      KeySet(keys)`ConcurrentLimit
    ensures |newKeys| == |rows| && forall i :: 0 <= i < |rows| ==> Configured(newKeys[i], rows[i])
    ensures forall i :: 0 <= i < |rows| && rows[i].id in existing ==> newKeys[i] == existing[rows[i].id]
    ensures forall i :: 0 <= i < |rows| && rows[i].id !in existing ==>
      fresh(newKeys[i]) && IsNew(newKeys[i], settings) && fresh(newKeys[i].circuitBreaker)
    ensures OwnBreakers(newKeys)
  {
    newKeys := [];
    for i := 0 to |rows|
      invariant |newKeys| == i && forall j :: 0 <= j < i ==> Configured(newKeys[j], rows[j])
      invariant forall j :: 0 <= j < i && rows[j].id in existing ==> newKeys[j] == existing[rows[j].id]
      invariant forall j :: 0 <= j < i && rows[j].id !in existing ==>
        fresh(newKeys[j]) && IsNew(newKeys[j], settings) && fresh(newKeys[j].circuitBreaker)
      invariant OwnBreakers(newKeys)
    {
      assert forall j :: 0 <= j < i ==> rows[j].id != rows[i].id;
      var key := KeyFor(rows[i], existing, settings);
      newKeys := newKeys + [key];
    }
  }

  /** A search whose first refusals were `before`. */
  function Refused(before: seq<string>, r: A.Search): A.Search {
    r.(refused := before + r.refused)
  }

  function States(keys: seq<PoolKey>): (was: seq<Runtime>)
    reads keys
    ensures |was| == |keys| && forall i :: 0 <= i < |keys| ==> was[i] == keys[i].State()
  {
    seq(|keys|, i requires 0 <= i < |keys| reads keys => keys[i].State())
  }

  /** What each listed key went through from `was` to `after`: `key` was taken, the IDs in `refused` were refused. */
  ghost predicate WentThrough(keys: seq<PoolKey>, was: seq<Runtime>, after: seq<Runtime>, now: int, key: PoolKey?,
          refused: seq<string>) {
    && |was| == |after| == |keys|
    && forall i :: 0 <= i < |keys| ==> after[i] == Touched(was[i], now, keys[i] == key, keys[i].ID in refused)
  }

  /** The same since `was` was noted. */
  ghost predicate Tracked(keys: seq<PoolKey>, was: seq<Runtime>, now: int, key: PoolKey?, refused: seq<string>)
    reads keys
  {
    WentThrough(keys, was, States(keys), now, key, refused)
  }

  /** One more key tried, which was not refused before. */
  lemma {:induction false} OneMoreTried(keys: seq<PoolKey>, was: seq<Runtime>, before: seq<Runtime>,
          after: seq<Runtime>, now: int, selected: PoolKey, ok: bool, refused: seq<string>)
    requires Distinct(keys) && selected in keys && selected.ID !in refused
    requires WentThrough(keys, was, before, now, null, refused) && |after| == |keys|
    requires forall i :: 0 <= i < |keys| ==>
      after[i] == if keys[i] == selected then Touched(before[i], now, ok, true) else before[i]
    ensures ok ==> WentThrough(keys, was, after, now, selected, refused)
    ensures !ok ==> WentThrough(keys, was, after, now, null, refused + [selected.ID])
  {
    forall i | 0 <= i < |keys|
      ensures keys[i].ID == selected.ID <==> keys[i] == selected
    {
      SameIdSameKey(keys, keys[i], selected);
    }
  }

  /** The keys still to be tried: listed, distinct, and none of them refused. */
  ghost predicate StillOpen(available: seq<PoolKey>, admitted: seq<PoolKey>, refused: seq<string>) {
    Distinct(available) && forall k :: k in available ==> k in admitted && k.ID !in refused
  }

  lemma RefusedNone(r: A.Search)
    ensures Refused([], r) == r
  {
    assert [] + r.refused == r.refused;
  }

  lemma RefusedOneMore(before: seq<string>, id: string, last: A.Search, more: A.Search)
    requires last == A.Refuse(id, more)
    ensures Refused(before, last) == Refused(before + [id], more)
  {
    assert before + ([id] + more.refused) == before + [id] + more.refused;
  }

  /** A key that a search returns was one of the candidates that could be taken. */
  lemma {:induction false} ReturnedWasAcquirable(keys: seq<PoolKey>, cands: seq<A.Candidate>, s: A.Strategy,
          key: PoolKey)
    requires Distinct(keys) && |cands| == |keys| && key in keys
    requires forall i :: 0 <= i < |keys| ==> cands[i].id == keys[i].ID
    requires A.Try(s, cands, 0).key == Some(key.ID)
    ensures forall i :: 0 <= i < |keys| && keys[i] == key ==> cands[i].acquirable
  {
    A.TakenIsAcquirable(s, cands, 0);
    var i :| 0 <= i < |cands| && cands[i].acquirable && cands[i].id == key.ID;
    SameIdSameKey(keys, keys[i], key);
  }

  function KeySet(keys: seq<PoolKey>): set<PoolKey> {
    set k | k in keys
  }

  /** What the weighted strategy makes of a key's accumulator before it picks. */
  function Credited(weights: map<string, int>, k: PoolKey): int
    reads k
  {
    (if k.ID in weights then weights[k.ID] else 0) + k.Weight
  }

  /** None when every credited accumulator is below 0, otherwise a listed key with the highest. */
  ghost predicate HighestPicked(weights: map<string, int>, keys: seq<PoolKey>, selected: PoolKey?)
    reads keys
  {
    if selected == null then forall k :: k in keys ==> Credited(weights, k) < 0
    else
      && selected in keys && 0 <= Credited(weights, selected)
      && forall k :: k in keys ==> Credited(weights, k) <= Credited(weights, selected)
  }

  lemma {:induction false} BestIsHighest(weights: map<string, int>, keys: seq<PoolKey>)
    requires Distinct(keys)
    ensures HighestPicked(weights, keys, Picked(keys, WeightedRR.Next(weights, Strategies.Entries(keys)).pick))
  {
    var ks := Strategies.Entries(keys);
    WeightedRR.CallChooses(weights, ks);
    assert WeightedRR.Chooses(weights, ks, WeightedRR.Next(weights, ks).pick);
    assert forall i :: 0 <= i < |keys| ==>
      WeightedRR.At(weights, ks[i].id) + ks[i].weight == Credited(weights, keys[i]);
  }

  class Manager {
    var keys: seq<PoolKey>
    const roundRobin: RoundRobinStrategy
    const weighted: WeightedRoundRobinStrategy
    var activeStrategy: string

    ghost predicate Valid()
      reads this, roundRobin, Breakers(keys)
    {
      && roundRobin.Valid()
      && Distinct(keys) && OwnBreakers(keys)
      && forall b :: b in Breakers(keys) ==> b.Valid()
    }

    /** The clock has not run backwards for any breaker of the pool. */
    ghost predicate Timely(now: int)
      reads this, Breakers(keys)
    {
      forall b :: b in Breakers(keys) ==> CircuitBreakers.Timely(b.history, now)
    }

    /** The state of the strategy in force; an unknown name falls back to rotation. */
    function Strategy(): A.Strategy
      reads this, roundRobin, weighted
    {
      if activeStrategy == WEIGHTED then A.Weighted(weighted.currentWeights) else A.Rotating(roundRobin.counter)
    }

    constructor (activeStrategy: string)
      ensures Valid() && keys == [] && this.activeStrategy == activeStrategy
      ensures fresh(roundRobin) && fresh(weighted)
    {
      keys := [];
      this.activeStrategy := activeStrategy;
      roundRobin := new RoundRobinStrategy();
      weighted := new WeightedRoundRobinStrategy();
    }

    /** First loop of GetKey: ask every breaker, keep the keys that are let through. */
    method AskBreakers(now: int) returns (available: seq<PoolKey>)
      requires Valid() && Timely(now)
      modifies Breakers(keys)
      ensures Valid()
      ensures available == old(Admitted(keys, now))
      ensures forall b :: b in Breakers(keys) ==> b.history == old(b.history) + [Asked(now)]
    {
      available := [];
      for i := 0 to |keys|
        invariant available == old(Admitted(keys[..i], now))
        invariant forall b :: b in Breakers(keys) ==> b.Valid()
        invariant forall j :: 0 <= j < i && keys[j].circuitBreaker != null ==>
          keys[j].circuitBreaker.history == old(keys[j].circuitBreaker.history) + [Asked(now)]
        invariant forall j :: i <= j < |keys| && keys[j].circuitBreaker != null ==>
          keys[j].circuitBreaker.history == old(keys[j].circuitBreaker.history)
      {
        var key := keys[i];
        assert keys[..i + 1][..i] == keys[..i];
        if key.circuitBreaker != null {
          assert key.circuitBreaker in Breakers(keys);
          var allowed := key.circuitBreaker.AllowRequest(now);
          if !allowed {
            continue;
          }
        }
        available := available + [key];
      }
      assert keys[..|keys|] == keys;
    }

    /** One call of the strategy in force. */
    method SelectKey(available: seq<PoolKey>, ghost now: int) returns (selected: PoolKey?)
      requires roundRobin.Valid()
      modifies roundRobin, weighted
      ensures roundRobin.Valid()
      ensures var c := A.Choose(old(Strategy()), old(Candidates(available, now)));
        Strategy() == c.strategy && selected == Picked(available, c.pick)
      ensures available == [] ==> selected == null
      ensures activeStrategy != "weighted_round_robin" ==>
        && weighted.currentWeights == old(weighted.currentWeights)
        && (available != [] ==>
              && selected == available[old(roundRobin.counter) % |available|]
              && roundRobin.counter == (old(roundRobin.counter) + 1) % 0x1_0000_0000_0000_0000)
      ensures activeStrategy == "weighted_round_robin" ==>
        && roundRobin.counter == old(roundRobin.counter)
        && (Distinct(available) ==> HighestPicked(old(weighted.currentWeights), available, selected))
    {
      ghost var cands := Candidates(available, now);
      assert A.Entries(cands) == Strategies.Entries(available);
      if Distinct(available) {
        BestIsHighest(weighted.currentWeights, available);
      }
      if activeStrategy == WEIGHTED {
        if available == [] {
          return null;
        }
        selected := weighted.Select(available);
      } else {
        RoundRobin.NoWrap(roundRobin.counter);
        selected := roundRobin.Select(available);
      }
    }

    /** One iteration of GetKey's loop: select, try both limits, and on a refusal drop the key from the list. */
    method SelectAndTry(available: seq<PoolKey>, now: int) returns (selected: PoolKey?, ok: bool, rest: seq<PoolKey>)
      requires roundRobin.Valid() && Distinct(available)
      modifies roundRobin, weighted
      modifies KeySet(available)`currentConcurrent
      modifies KeySet(available)`minuteCounter, KeySet(available)`dayCounter, KeySet(available)`minuteResetAt,
        KeySet(available)`dayResetAt
      ensures roundRobin.Valid()
      ensures var c := A.Choose(old(Strategy()), old(Candidates(available, now)));
        && Strategy() == c.strategy && selected == Picked(available, c.pick)
        && (c.pick.Some? ==> ok == old(Candidates(available, now))[c.pick.value].acquirable)
        && (c.pick.Some? && !ok ==>
              && rest == RemoveAt(available, c.pick.value)
              && Candidates(rest, now) == RemoveAt(old(Candidates(available, now)), c.pick.value))
      ensures selected == null ==> !ok
      ensures selected != null ==> selected.State() == Touched(old(selected.State()), now, ok, true)
      ensures forall k :: k in available && k != selected ==> k.State() == old(k.State())
    {
      ghost var c := A.Choose(Strategy(), Candidates(available, now));
      selected := SelectKey(available, now);
      if selected == null {
        return selected, false, available;
      }
      ok, rest := TryOrDrop(available, c.pick.value, selected, now);
    }

    /**
     The same iteration, and what is left to do: the rest of the search, on the other keys. All keys but
     the selected one are left alone.
     */
    method Attempt(available: seq<PoolKey>, now: int, ghost attempts: nat)
      returns (selected: PoolKey?, ok: bool, rest: seq<PoolKey>)
      requires roundRobin.Valid() && Distinct(available) && attempts < |available|
      modifies roundRobin, weighted
      modifies KeySet(available)`currentConcurrent
      modifies KeySet(available)`minuteCounter, KeySet(available)`dayCounter, KeySet(available)`minuteResetAt,
        KeySet(available)`dayResetAt
      ensures roundRobin.Valid()
      ensures selected == null ==> old(Remaining(available, now, attempts)) == A.Search(Strategy(), None, [])
      ensures selected != null && ok ==>
        old(Remaining(available, now, attempts)) == A.Search(Strategy(), Some(selected.ID), [])
      ensures selected != null && !ok ==>
        old(Remaining(available, now, attempts)) == A.Refuse(selected.ID, Remaining(rest, now, attempts + 1))
      ensures selected != null ==> selected in available
      ensures selected != null && !ok ==>
        |rest| == |available| - 1 && Distinct(rest) && forall k :: k in rest ==> k in available && k != selected
      ensures selected != null ==> selected.State() == Touched(old(selected.State()), now, ok, true)
      ensures forall k :: k in available && k != selected ==> k.State() == old(k.State())
      ensures selected == null ==> !ok
    {
      ghost var s, cands := Strategy(), Candidates(available, now);
      ghost var c := A.Choose(s, cands);
      selected, ok, rest := SelectAndTry(available, now);
      A.TryStep(s, cands, attempts, c, if c.pick.Some? then RemoveAt(cands, c.pick.value) else []);
      if selected != null && !ok {
        RestIsDistinct(available, c.pick.value);
      }
    }

    /** What the loop still has to do with the keys left. */
    ghost function Remaining(rest: seq<PoolKey>, now: int, attempts: nat): A.Search
      reads this, roundRobin, weighted, rest
    {
      A.Try(Strategy(), Candidates(rest, now), attempts)
    }

    /** One iteration again, with what it means for all the keys on GetKey's list. */
    method AttemptTracked(admitted: seq<PoolKey>, available: seq<PoolKey>, now: int, ghost attempts: nat,
                          ghost was: seq<Runtime>, ghost refused: seq<string>)
      returns (selected: PoolKey?, ok: bool, rest: seq<PoolKey>)
      requires roundRobin.Valid() && attempts < |available|
      requires Distinct(admitted) && StillOpen(available, admitted, refused)
        && Tracked(admitted, was, now, null, refused)
      modifies roundRobin, weighted
      modifies KeySet(admitted)`currentConcurrent
      modifies KeySet(admitted)`minuteCounter, KeySet(admitted)`dayCounter, KeySet(admitted)`minuteResetAt,
        KeySet(admitted)`dayResetAt
      ensures roundRobin.Valid()
      ensures selected == null ==> !ok && old(Remaining(available, now, attempts)) == A.Search(Strategy(), None, [])
      ensures selected != null && ok ==>
        old(Remaining(available, now, attempts)) == A.Search(Strategy(), Some(selected.ID), [])
      ensures selected != null && !ok ==>
        old(Remaining(available, now, attempts)) == A.Refuse(selected.ID, Remaining(rest, now, attempts + 1))
      ensures selected == null || ok ==> Tracked(admitted, was, now, selected, refused)
      ensures selected != null ==> selected in admitted
      ensures selected != null && !ok ==>
        && |rest| == |available| - 1
        && Tracked(admitted, was, now, null, refused + [selected.ID])
        && StillOpen(rest, admitted, refused + [selected.ID])
    {
      ghost var before := States(admitted);
      selected, ok, rest := Attempt(available, now, attempts);
      if selected != null {
        OneMoreTried(admitted, was, before, States(admitted), now, selected, ok, refused);
        if !ok {
          RestStillOpen(available, rest, admitted, refused, selected);
        }
      }
    }

    /** The loop is over, and it was the search r. */
    ghost predicate SearchEnds(admitted: seq<PoolKey>, was: seq<Runtime>, now: int, key: PoolKey?, r: A.Search)
      reads this, roundRobin, weighted, admitted
    {
      && Strategy() == r.strategy
      && (key == null <==> r.key.None?)
      && (key != null ==> key in admitted && key.ID == r.key.value)
      && Tracked(admitted, was, now, key, r.refused)
    }

    /** Second loop of GetKey, on the keys the breakers let through: the search that A.Try describes. */
    method SearchKeys(admitted: seq<PoolKey>, now: int) returns (key: PoolKey?)
      requires roundRobin.Valid() && Distinct(admitted)
      modifies roundRobin, weighted
      modifies KeySet(admitted)`currentConcurrent
      modifies KeySet(admitted)`minuteCounter, KeySet(admitted)`dayCounter, KeySet(admitted)`minuteResetAt,
        KeySet(admitted)`dayResetAt
      ensures roundRobin.Valid()
      ensures SearchEnds(admitted, old(States(admitted)), now, key, old(Remaining(admitted, now, 0)))
    {
      ghost var was := States(admitted);
      ghost var refused: seq<string> := [];
      var available, attempts := admitted, 0;
      ghost var r := Remaining(admitted, now, 0);
      ghost var more := r;
      RefusedNone(r);
      while attempts < |available|
        invariant roundRobin.Valid() && StillOpen(available, admitted, refused)
        invariant more == Remaining(available, now, attempts)
        invariant r == Refused(refused, more)
        invariant Tracked(admitted, was, now, null, refused)
      {
        var selected, ok, rest := AttemptTracked(admitted, available, now, attempts, was, refused);
        if selected == null || ok {
          return selected;
        }
        ghost var last := more;
        more := Remaining(rest, now, attempts + 1);
        RefusedOneMore(refused, selected.ID, last, more);
        available, refused := rest, refused + [selected.ID];
        if |available| == 0 {
          return null;
        }
        attempts := attempts + 1;
      }
      return null;
    }

    /**
     Nothing for an empty list, otherwise the same loop, and what its result means for the caller: the
     returned key had a slot and passed its rate limit, it holds one lease more, and no other key holds
     more or fewer leases than before.
     */
    method TryKeys(admitted: seq<PoolKey>, now: int) returns (key: PoolKey?)
      requires roundRobin.Valid() && Distinct(admitted)
      modifies roundRobin, weighted
      modifies KeySet(admitted)`currentConcurrent
      modifies KeySet(admitted)`minuteCounter, KeySet(admitted)`dayCounter, KeySet(admitted)`minuteResetAt,
        KeySet(admitted)`dayResetAt
      ensures roundRobin.Valid()
      ensures var r := old(Remaining(admitted, now, 0));
        && Strategy() == r.strategy
        && (key == null <==> r.key.None?)
        && (key != null ==> key in admitted && key.ID == r.key.value)
        && forall k :: k in admitted ==> k.State() == Touched(old(k.State()), now, k == key, k.ID in r.refused)
      ensures key != null ==> old(Acquirable(key, now)) && key.currentConcurrent == old(key.currentConcurrent) + 1
      ensures key != null ==>
        && old(key.currentConcurrent) < key.ConcurrentLimit
        && key.minuteCounter == (if now > old(key.minuteResetAt) then 0 else old(key.minuteCounter)) + 1
        && key.minuteCounter <= key.RateLimitPerMinute
        && key.dayCounter == (if now > old(key.dayResetAt) then 0 else old(key.dayCounter)) + 1
        && key.dayCounter <= key.RateLimitPerDay
      ensures forall k :: k in admitted && k != key ==> k.currentConcurrent == old(k.currentConcurrent)
    {
      if |admitted| == 0 {
        return null;
      }
      ghost var s, cands := Strategy(), Candidates(admitted, now);
      key := SearchKeys(admitted, now);
      if key != null {
        ReturnedWasAcquirable(admitted, cands, s, key);
      }
    }

    /** The first loop again, with what its list means. */
    method ListAdmitted(now: int) returns (available: seq<PoolKey>)
      requires Valid() && Timely(now)
      modifies Breakers(keys)
      ensures Valid() && available == old(Admitted(keys, now)) && Distinct(available)
      ensures forall k :: k in available ==> k in keys && old(LetThrough(k, now))
      ensures forall k :: k in keys && old(LetThrough(k, now)) ==> k in available
      ensures forall k :: k in available && k.circuitBreaker != null ==>
        CircuitBreakers.Admits(k.circuitBreaker.cfg, old(k.circuitBreaker.history), now)
      ensures forall k :: k in keys && k !in available ==>
        && k.circuitBreaker != null
        && !CircuitBreakers.Admits(k.circuitBreaker.cfg, old(k.circuitBreaker.history), now)
      ensures forall b :: b in Breakers(keys) ==> b.history == old(b.history) + [Asked(now)]
    {
      AdmittedAreKeys(keys, now);
      AdmittedDistinct(keys, now);
      available := AskBreakers(now);
    }

    /**
     GetKey: the search of Acquisition over the keys whose breaker admits them by its history. A
     returned key was admitted by its breaker and both limits and alone gains a lease; a refused key
     has its slot back; keys that were not on the list are untouched.
     */
    method GetKey(now: int) returns (key: PoolKey?)
      requires Valid() && Timely(now)
      modifies roundRobin, weighted, Breakers(keys)
      modifies KeySet(keys)`currentConcurrent
      modifies KeySet(keys)`minuteCounter, KeySet(keys)`dayCounter, KeySet(keys)`minuteResetAt, KeySet(keys)`dayResetAt
      ensures Valid()
      ensures var r := old(Outcome(now));
        && Strategy() == r.strategy
        && (key == null <==> r.key.None?)
        && (key != null ==> key in keys && old(LetThrough(key, now)) && key.ID == r.key.value)
        && forall k :: k in keys ==>
             k.State() == if old(LetThrough(k, now))
               then Touched(old(k.State()), now, k == key, k.ID in r.refused)
               else old(k.State())
      ensures key != null ==> old(Acquirable(key, now)) && key.currentConcurrent == old(key.currentConcurrent) + 1
      ensures key != null ==>
        && old(key.currentConcurrent) < key.ConcurrentLimit
        && key.minuteCounter == (if now > old(key.minuteResetAt) then 0 else old(key.minuteCounter)) + 1
        && key.minuteCounter <= key.RateLimitPerMinute
        && key.dayCounter == (if now > old(key.dayResetAt) then 0 else old(key.dayCounter)) + 1
        && key.dayCounter <= key.RateLimitPerDay
      ensures key != null && key.circuitBreaker != null ==>
        CircuitBreakers.Admits(key.circuitBreaker.cfg, old(key.circuitBreaker.history), now)
      ensures forall k :: k in keys && k != key ==> k.currentConcurrent == old(k.currentConcurrent)
      ensures forall k :: k in keys && old(k.currentConcurrent) >= k.ConcurrentLimit ==> k.State() == old(k.State())
      ensures forall b :: b in Breakers(keys) ==> b.history == old(b.history) + [Asked(now)]
    {
      ghost var r, cands := Outcome(now), Candidates(Admitted(keys, now), now);
      var available := ListAdmitted(now);
      assert Candidates(available, now) == cands;
      key := TryKeys(available, now);
    }

    /** The search GetKey makes from the current state. */
    ghost function Outcome(now: int): A.Search
      reads this, roundRobin, weighted, keys, Breakers(keys)
    {
      AdmittedAreKeys(keys, now);
      A.GetKey(Strategy(), Candidates(Admitted(keys, now), now))
    }

    /** The keys of the pool by ID. */
    method Existing() returns (existing: map<string, PoolKey>)
      requires Distinct(keys)
      ensures forall k :: k in keys ==> k.ID in existing && existing[k.ID] == k
      ensures forall id :: id in existing ==> existing[id] in keys && existing[id].ID == id
    {
      existing := map[];
      for i := 0 to |keys|
        invariant forall j :: 0 <= j < i ==> keys[j].ID in existing && existing[keys[j].ID] == keys[j]
        invariant forall id :: id in existing ==> existing[id] in keys && existing[id].ID == id
      {
        existing := existing[keys[i].ID := keys[i]];
      }
    }

    /**
     Reload from the table. A known ID keeps its object, and with it every lease, counter, window and
     breaker: the frame lets only configuration fields of the old keys change. Unknown IDs get fresh
     state, IDs that are gone leave the pool, and a failed read changes nothing.
     */
    method ReloadKeys(rows: Option<seq<Row>>, settings: Settings) returns (failed: bool)
      requires Valid() && 1 <= settings.failureThreshold
      requires rows.Some? ==> DistinctRows(rows.value)
      modifies this`keys
      modifies KeySet(keys)`Weight, KeySet(keys)`RateLimitPerMinute, KeySet(keys)`RateLimitPerDay,
        KeySet(keys)`ConcurrentLimit
      ensures Valid()
      ensures failed <==> rows.None?
      ensures failed ==> keys == old(keys) && forall k :: k in keys ==>
        k.State() == old(k.State()) && k.Weight == old(k.Weight)
      ensures !failed ==>
        && |keys| == |rows.value|
        && (forall i :: 0 <= i < |keys| ==> Configured(keys[i], rows.value[i]))
        && (forall i :: 0 <= i < |keys| ==>
              && keys[i].ID == rows.value[i].id && keys[i].Weight == rows.value[i].weight
              && keys[i].RateLimitPerMinute == rows.value[i].perMinute
              && keys[i].RateLimitPerDay == rows.value[i].perDay
              && keys[i].ConcurrentLimit == rows.value[i].concurrentLimit)
        && (forall k, i :: k in old(keys) && 0 <= i < |keys| && rows.value[i].id == k.ID ==> keys[i] == k)
        && (forall k :: k in keys && k !in old(keys) ==> fresh(k) && IsNew(k, settings) && fresh(k.circuitBreaker))
        && (forall k :: k in keys && k !in old(keys) ==>
              && k.currentConcurrent == k.minuteCounter == k.dayCounter == 0
              && k.circuitBreaker.cfg == settings && k.circuitBreaker.history == [])
    {
      if rows.None? {
        return true;
      }
      var dbKeys := rows.value;
      var existing := Existing();
      keys := BuildKeys(dbKeys, keys, existing, settings);
      return false;
    }

    /** Switch to another known strategy, from a clean state; unknown names change nothing. */
    method UpdateStrategy(wanted: string)
      requires Valid()
      modifies this`activeStrategy, roundRobin, weighted
      ensures Valid()
      ensures activeStrategy == if wanted in {ROUND_ROBIN, WEIGHTED} then wanted else old(activeStrategy)
      ensures activeStrategy != old(activeStrategy) ==>
        Strategy() == if wanted == WEIGHTED then A.Weighted(map[]) else A.Rotating(0)
      ensures activeStrategy == old(activeStrategy) ==> Strategy() == old(Strategy())
      ensures activeStrategy != old(activeStrategy) && activeStrategy == "weighted_round_robin" ==>
        weighted.currentWeights == map[] && roundRobin.counter == old(roundRobin.counter)
      ensures activeStrategy != old(activeStrategy) && activeStrategy == "round_robin" ==>
        roundRobin.counter == 0 && weighted.currentWeights == old(weighted.currentWeights)
      ensures activeStrategy in {"round_robin", "weighted_round_robin", old(activeStrategy)}
    {
      if wanted != activeStrategy && wanted in {ROUND_ROBIN, WEIGHTED} {
        activeStrategy := wanted;
        if wanted == WEIGHTED {
          weighted.Reset();
        } else {
          roundRobin.Reset();
        }
      }
    }
  }
}
