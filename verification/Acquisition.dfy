/**
 The retry loop of GetKey (internal/keypool/manager.go) on values: which keys it tries, which
 one it returns, and what a nil really means.
 */
module Acquisition {
  import opened Wrappers
  import opened WeightedRR
  import RoundRobin

  /** A key that passed its breaker, and whether both limits would let it be taken now. */
  datatype Candidate = Candidate(id: string, weight: int, acquirable: bool)

  datatype Strategy = Rotating(counter: nat) | Weighted(weights: Weights)

  datatype Choice = Choice(strategy: Strategy, pick: Option<nat>)

  datatype Search = Search(strategy: Strategy, key: Option<string>, refused: seq<string>)

  function Entries(cands: seq<Candidate>): (ks: seq<Entry>)
    ensures |ks| == |cands|
  {
    seq(|cands|, i requires 0 <= i < |cands| => Entry(cands[i].id, cands[i].weight))
  }

  /** One call of the active strategy. */
  function Choose(s: Strategy, cands: seq<Candidate>): (c: Choice)
    ensures c.pick.Some? ==> c.pick.value < |cands|
    ensures s.Rotating? <==> c.strategy.Rotating?
    ensures s.Rotating? && cands != [] ==> c.pick.Some?
  {
    if cands == [] then Choice(s, None)
    else
      match s
      case Rotating(counter) => Choice(Rotating(RoundRobin.Advance(counter)), Some(counter % |cands|))
      case Weighted(weights) =>
        var o := Next(weights, Entries(cands));
        Choice(Weighted(o.weights), o.pick)
  }

  /**
   The loop as coded: the guard compares the attempts so far, which grow, with the keys left,
   which shrink.
   */
  function Try(s: Strategy, cands: seq<Candidate>, attempts: nat): Search
    decreases |cands|
  {
    if |cands| <= attempts then Search(s, None, [])
    else
      var c := Choose(s, cands);
      match c.pick
      case None => Search(c.strategy, None, [])
      case Some(i) =>
        if cands[i].acquirable then Search(c.strategy, Some(cands[i].id), [])
        else
          var rest := RemoveAt(cands, i);
          if rest == [] then Search(c.strategy, None, [cands[i].id])
          else
            var more := Try(c.strategy, rest, attempts + 1);
            more.(refused := [cands[i].id] + more.refused)
  }

  /** One iteration of the loop. */
  lemma {:induction false} TryStep(s: Strategy, cands: seq<Candidate>, attempts: nat, c: Choice, rest: seq<Candidate>)
    requires attempts < |cands| && c == Choose(s, cands)
    requires c.pick.Some? ==> rest == RemoveAt(cands, c.pick.value)
    ensures Try(s, cands, attempts) ==
      if c.pick.None? then Search(c.strategy, None, [])
      else if cands[c.pick.value].acquirable then Search(c.strategy, Some(cands[c.pick.value].id), [])
      else Refuse(cands[c.pick.value].id, Try(c.strategy, rest, attempts + 1))
  {
  }

  /** The result of a search after one more refusal at its front. */
  function Refuse(id: string, more: Search): Search {
    more.(refused := [id] + more.refused)
  }

  /** The candidates in the order the strategy offers them while every one of them is refused. */
  function Probes(s: Strategy, cands: seq<Candidate>): (order: seq<Candidate>)
    ensures |order| <= |cands|
    decreases |cands|
  {
    var c := Choose(s, cands);
    match c.pick
    case None => []
    case Some(i) => [cands[i]] + Probes(c.strategy, RemoveAt(cands, i))
  }

  /** How many candidates the loop tries at most, out of n, after some attempts. */
  function Budget(n: nat, attempts: nat): nat {
    if n <= attempts then 0 else (n - attempts + 1) / 2
  }

  ghost predicate AllRefused(order: seq<Candidate>) {
    forall k :: 0 <= k < |order| ==> !order[k].acquirable
  }

  function Ids(order: seq<Candidate>): (ids: seq<string>)
    ensures |ids| == |order|
  {
    seq(|order|, k requires 0 <= k < |order| => order[k].id)
  }

  /** The first acquirable candidate of a probing order. */
  function FirstAcquirable(order: seq<Candidate>): Option<Candidate> {
    if order == [] then None
    else if order[0].acquirable then Some(order[0])
    else FirstAcquirable(order[1..])
  }

  /** The result r of searching the first `budget` of a probing order, and nothing more. */
  ghost predicate Searches(order: seq<Candidate>, budget: nat, r: Search) {
    var reach := order[..Least(budget, |order|)];
    var found := FirstAcquirable(reach);
    && r.key == (if found.Some? then Some(found.value.id) else None)
    && (found.None? ==> r.refused == Ids(reach))
  }

  lemma {:induction false} SearchesOneMore(first: Candidate, order: seq<Candidate>, budget: nat, r: Search)
    requires Searches(order, budget, r) && !first.acquirable
    ensures Searches([first] + order, budget + 1, r.(refused := [first.id] + r.refused))
  {
    var less := order[..Least(budget, |order|)];
    var reach := ([first] + order)[..Least(budget + 1, |order| + 1)];
    assert reach == [first] + less;
    assert reach[1..] == less;
    assert Ids(reach) == [first.id] + Ids(less);
  }

  lemma BudgetStep(n: nat, attempts: nat)
    requires attempts < n
    ensures Budget(n, attempts) == Budget(n - 1, attempts + 1) + 1
  {
  }

  /** One more key of the probing order. */
  lemma {:induction false} ProbesStep(s: Strategy, cands: seq<Candidate>, c: Choice, rest: seq<Candidate>)
    requires c == Choose(s, cands) && c.pick.Some? && rest == RemoveAt(cands, c.pick.value)
    ensures Probes(s, cands) == [cands[c.pick.value]] + Probes(c.strategy, rest)
  {
  }

  lemma {:induction false} NoMoreProbes(s: Strategy, cands: seq<Candidate>)
    requires Choose(s, cands).pick.None?
    ensures Probes(s, cands) == []
  {
  }

  lemma {:induction false} SearchesNone(order: seq<Candidate>, budget: nat, r: Search)
    requires r.key == None && r.refused == [] && (order == [] || budget == 0)
    ensures Searches(order, budget, r)
  {
    assert order[..Least(budget, |order|)] == [];
  }

  lemma {:induction false} SearchesFirst(first: Candidate, order: seq<Candidate>, budget: nat, r: Search)
    requires first.acquirable && r.key == Some(first.id)
    ensures Searches([first] + order, budget + 1, r)
  {
    assert ([first] + order)[..Least(budget + 1, |order| + 1)][0] == first;
  }

  /** One iteration that tries a key: the rest of the search is the rest of the loop. */
  lemma {:induction false} SearchGoesOn(s: Strategy, cands: seq<Candidate>, attempts: nat, c: Choice,
          rest: seq<Candidate>)
    requires attempts < |cands| && c == Choose(s, cands) && c.pick.Some? && rest == RemoveAt(cands, c.pick.value)
    requires Searches(Probes(c.strategy, rest), Budget(|rest|, attempts + 1), Try(c.strategy, rest, attempts + 1))
    ensures Searches(Probes(s, cands), Budget(|cands|, attempts), Try(s, cands, attempts))
  {
    var first, order, budget := cands[c.pick.value], Probes(c.strategy, rest), Budget(|rest|, attempts + 1);
    BudgetStep(|cands|, attempts);
    ProbesStep(s, cands, c, rest);
    TryStep(s, cands, attempts, c, rest);
    if first.acquirable {
      SearchesFirst(first, order, budget, Try(s, cands, attempts));
    } else {
      SearchesOneMore(first, order, budget, Try(c.strategy, rest, attempts + 1));
    }
  }

  lemma {:induction false} SearchIsOver(s: Strategy, cands: seq<Candidate>, attempts: nat)
    requires |cands| <= attempts || Choose(s, cands).pick.None?
    ensures Searches(Probes(s, cands), Budget(|cands|, attempts), Try(s, cands, attempts))
  {
    if Choose(s, cands).pick.None? {
      NoMoreProbes(s, cands);
    }
    SearchesNone(Probes(s, cands), Budget(|cands|, attempts), Try(s, cands, attempts));
  }

  /** The loop is a search of the first Budget probes. */
  lemma {:induction false} TryIsBoundedSearch(s: Strategy, cands: seq<Candidate>, attempts: nat)
    ensures Searches(Probes(s, cands), Budget(|cands|, attempts), Try(s, cands, attempts))
    decreases |cands|
  {
    var c := Choose(s, cands);
    if |cands| <= attempts || c.pick.None? {
      SearchIsOver(s, cands, attempts);
    } else {
      var rest := RemoveAt(cands, c.pick.value);
      TryIsBoundedSearch(c.strategy, rest, attempts + 1);
      SearchGoesOn(s, cands, attempts, c, rest);
    }
  }

  /** What GetKey's loop returns on the keys that passed their breakers. */
  function GetKey(s: Strategy, cands: seq<Candidate>): Search {
    if cands == [] then Search(s, None, []) else Try(s, cands, 0)
  }

  /** The keys GetKey can reach: the first ceil(n/2) of the probing order. */
  function Reach(s: Strategy, cands: seq<Candidate>): seq<Candidate> {
    Probes(s, cands)[..Least((|cands| + 1) / 2, |Probes(s, cands)|)]
  }

  lemma {:induction false} FirstAcquirableMeans(order: seq<Candidate>)
    ensures FirstAcquirable(order).None? <==> AllRefused(order)
    ensures FirstAcquirable(order).Some? ==>
      FirstAcquirable(order).value in order && FirstAcquirable(order).value.acquirable
  {
    if order != [] {
      FirstAcquirableMeans(order[1..]);
    }
  }

  /**
   The exact guarantee: GetKey returns a key exactly when one of the first ceil(n/2) keys of the
   probing order can be taken; on nil exactly those keys were refused, once each.
   */
  lemma {:induction false} GetKeyServesIffReachable(s: Strategy, cands: seq<Candidate>)
    ensures var r := GetKey(s, cands);
      && (r.key.Some? <==> exists k :: k in Reach(s, cands) && k.acquirable)
      && (r.key.Some? ==> exists k :: k in Reach(s, cands) && k.acquirable && k.id == r.key.value)
      && (r.key.None? ==> r.refused == Ids(Reach(s, cands)))
  {
    var reach := Reach(s, cands);
    if cands != [] {
      TryIsBoundedSearch(s, cands, 0);
    }
    FirstAcquirableMeans(reach);
  }

  /** Whatever the strategy, the key that the loop returns is one of the list that can be taken. */
  lemma {:induction false} TakenIsAcquirable(s: Strategy, cands: seq<Candidate>, attempts: nat)
    ensures var r := Try(s, cands, attempts);
      r.key.Some? ==> exists i :: 0 <= i < |cands| && cands[i].acquirable && cands[i].id == r.key.value
    decreases |cands|
  {
    var c, r := Choose(s, cands), Try(s, cands, attempts);
    if r.key.Some? && !cands[c.pick.value].acquirable {
      var rest := RemoveAt(cands, c.pick.value);
      TryStep(s, cands, attempts, c, rest);
      TakenIsAcquirable(c.strategy, rest, attempts + 1);
      var k :| 0 <= k < |rest| && rest[k].acquirable && rest[k].id == r.key.value;
      assert rest[k] == cands[if k < c.pick.value then k else k + 1];
    }
  }

  // ----- rotation -----

  /** Rotation probes every candidate exactly once. */
  lemma {:induction false} RotationProbesAll(counter: nat, cands: seq<Candidate>)
    ensures |Probes(Rotating(counter), cands)| == |cands|
    ensures multiset(Probes(Rotating(counter), cands)) == multiset(cands)
    decreases |cands|
  {
    if cands != [] {
      var i := counter % |cands|;
      RotationProbesAll(RoundRobin.Advance(counter), RemoveAt(cands, i));
      MultisetRemoveAt(cands, i);
    }
  }

  lemma {:induction false} MultisetRemoveAt(cands: seq<Candidate>, i: nat)
    requires i < |cands|
    ensures multiset(cands) == multiset{cands[i]} + multiset(RemoveAt(cands, i))
  {
    assert cands == cands[..i] + [cands[i]] + cands[i + 1..];
  }

  /**
   With rotation, nil means that ceil(n/2) of the n admitted keys were refused, in distinct
   positions of the list, and nothing is known about the others.
   */
  lemma {:induction false} RotationNilMeansHalfRefused(counter: nat, cands: seq<Candidate>)
    requires GetKey(Rotating(counter), cands).key.None?
    ensures var r := GetKey(Rotating(counter), cands).refused;
      |r| == (|cands| + 1) / 2 && r == Ids(Reach(Rotating(counter), cands))
    ensures AllRefused(Reach(Rotating(counter), cands))
    ensures multiset(Reach(Rotating(counter), cands)) <= multiset(cands)
  {
    var s := Rotating(counter);
    RotationProbesAll(counter, cands);
    GetKeyServesIffReachable(s, cands);
    var order, reach := Probes(s, cands), Reach(s, cands);
    assert order == reach + order[|reach|..];
  }

  function Acquirable(cands: seq<Candidate>): nat {
    if cands == [] then 0 else (if cands[0].acquirable then 1 else 0) + Acquirable(cands[1..])
  }

  lemma {:induction false} AcquirableSplit(a: seq<Candidate>, b: seq<Candidate>)
    ensures Acquirable(a + b) == Acquirable(a) + Acquirable(b)
  {
    if a == [] {
      assert a + b == b;
    } else {
      AcquirableSplit(a[1..], b);
      assert (a + b)[1..] == a[1..] + b;
    }
  }

  lemma {:induction false} AcquirableRemoveAt(cands: seq<Candidate>, i: nat)
    requires i < |cands|
    ensures Acquirable(cands) == (if cands[i].acquirable then 1 else 0) + Acquirable(RemoveAt(cands, i))
  {
    assert cands == cands[..i] + ([cands[i]] + cands[i + 1..]);
    AcquirableSplit(cands[..i], [cands[i]] + cands[i + 1..]);
    AcquirableSplit([cands[i]], cands[i + 1..]);
    AcquirableSplit(cands[..i], cands[i + 1..]);
    assert [cands[i]][1..] == [];
  }

  lemma {:induction false} AcquirableProbes(counter: nat, cands: seq<Candidate>)
    ensures Acquirable(Probes(Rotating(counter), cands)) == Acquirable(cands)
    decreases |cands|
  {
    if cands != [] {
      var i := counter % |cands|;
      var rest := RemoveAt(cands, i);
      AcquirableProbes(RoundRobin.Advance(counter), rest);
      AcquirableRemoveAt(cands, i);
      var order := Probes(Rotating(counter), cands);
      assert order[1..] == Probes(Rotating(RoundRobin.Advance(counter)), rest);
    }
  }

  lemma {:induction false} AcquirableBounds(cands: seq<Candidate>)
    ensures Acquirable(cands) <= |cands|
    ensures AllRefused(cands) <==> Acquirable(cands) == 0
  {
    if cands != [] {
      AcquirableBounds(cands[1..]);
    }
  }

  lemma {:induction false} RefusedPrefix(order: seq<Candidate>, k: nat)
    requires k <= |order| && AllRefused(order[..k])
    ensures Acquirable(order) <= |order| - k
  {
    assert order == order[..k] + order[k..];
    AcquirableSplit(order[..k], order[k..]);
    AcquirableBounds(order[..k]);
    AcquirableBounds(order[k..]);
  }

  /** More than floor(n/2) acquirable keys out of n admitted are always enough, whatever the counter. */
  lemma {:induction false} MajoritySuffices(counter: nat, cands: seq<Candidate>)
    requires Acquirable(cands) > |cands| / 2
    ensures GetKey(Rotating(counter), cands).key.Some?
  {
    if GetKey(Rotating(counter), cands).key.None? {
      RotationNilMeansHalfRefused(counter, cands);
      AcquirableProbes(counter, cands);
      RotationProbesAll(counter, cands);
      RefusedPrefix(Probes(Rotating(counter), cands), (|cands| + 1) / 2);
    }
  }

  // ----- with other calls in between -----

  /** What the strategy, moved on by anyone, selects of a list at an attempt; nil is possible with weights. */
  type Selection = (seq<string>, nat) -> Option<nat>

  /** Whether a key can be taken at the moment of an attempt. */
  type Moment = (string, nat) -> bool

  /** How a call ends: with a key, after its last attempt, or because nothing was selected; the last two return nil. */
  datatype Ending =
    | Took(key: string, refused: seq<string>)
    | RanOut(refused: seq<string>)
    | NoneSelected(refused: seq<string>)

  ghost predicate InRange(select: Selection) {
    forall list: seq<string>, a: nat :: select(list, a).Some? ==> select(list, a).value < |list|
  }

  /** The loop of one call while others run: each selection and each limit check has its own moment. */
  ghost function TryAmong(ids: seq<string>, attempts: nat, select: Selection, taken: Moment): Ending
    requires InRange(select)
    decreases |ids|
  {
    if |ids| <= attempts then RanOut([])
    else
      match select(ids, attempts)
      case None => NoneSelected([])
      case Some(i) =>
        if taken(ids[i], attempts) then Took(ids[i], [])
        else
          var more := TryAmong(RemoveAt(ids, i), attempts + 1, select, taken);
          more.(refused := [ids[i]] + more.refused)
  }

  ghost predicate NoRepeats(ids: seq<string>) {
    forall i, j :: 0 <= i < j < |ids| ==> ids[i] != ids[j]
  }

  /**
   What the loop found out: distinct listed keys refused, each when it was tried. It ran out after
   exactly its budget of them, took a key that was free when it was tried, or was given none to try.
   */
  ghost predicate FoundOut(ids: seq<string>, attempts: nat, taken: Moment, r: Ending) {
    && NoRepeats(r.refused)
    && (forall k :: 0 <= k < |r.refused| ==> r.refused[k] in ids && !taken(r.refused[k], attempts + k))
    && (if r.RanOut? then |r.refused| == Budget(|ids|, attempts) else |r.refused| < Budget(|ids|, attempts))
    && (r.Took? ==> r.key in ids && r.key !in r.refused && taken(r.key, attempts + |r.refused|))
  }

  lemma {:induction false} OneMoreFoundOut(ids: seq<string>, i: nat, attempts: nat, taken: Moment, r: Ending)
    requires attempts < |ids| && i < |ids| && NoRepeats(ids) && !taken(ids[i], attempts)
    requires FoundOut(RemoveAt(ids, i), attempts + 1, taken, r)
    ensures FoundOut(ids, attempts, taken, r.(refused := [ids[i]] + r.refused))
  {
    var rest, all := RemoveAt(ids, i), [ids[i]] + r.refused;
    BudgetStep(|ids|, attempts);
    assert ids[i] !in rest;
    forall k | 0 <= k < |all|
      ensures all[k] in ids && !taken(all[k], attempts + k)
    {
      if k != 0 {
        assert all[k] == r.refused[k - 1] && r.refused[k - 1] in rest;
      }
    }
  }

  /**
   In any interleaving, for both strategies: a call returns nil only because a selection gave none, or
   because exactly ceil(n/2) distinct keys of its list were refused, each when it was tried; and it returns
   a key only when its turn took it.
   */
  lemma {:induction false} NilAmongOthers(ids: seq<string>, attempts: nat, select: Selection, taken: Moment)
    requires NoRepeats(ids) && InRange(select)
    ensures FoundOut(ids, attempts, taken, TryAmong(ids, attempts, select, taken))
    decreases |ids|
  {
    if attempts < |ids| {
      var pick := select(ids, attempts);
      BudgetStep(|ids|, attempts);
      if pick.Some? && !taken(ids[pick.value], attempts) {
        var rest := RemoveAt(ids, pick.value);
        NilAmongOthers(rest, attempts + 1, select, taken);
        OneMoreFoundOut(ids, pick.value, attempts, taken, TryAmong(rest, attempts + 1, select, taken));
      }
    }
  }

  /** What an undisturbed strategy selects after k refusals. */
  function Offered(s: Strategy, cands: seq<Candidate>, k: nat): Option<nat>
    decreases k
  {
    var c := Choose(s, cands);
    if k == 0 || c.pick.None? then c.pick else Offered(c.strategy, RemoveAt(cands, c.pick.value), k - 1)
  }

  /** From attempt a on, nobody disturbs the strategy. */
  ghost predicate Undisturbed(select: Selection, s: Strategy, cands: seq<Candidate>, a: nat) {
    forall list: seq<string>, b: nat :: a <= b && |list| == |cands| - (b - a) ==>
      select(list, b) == Offered(s, cands, b - a)
  }

  lemma {:induction false} StaysUndisturbed(select: Selection, s: Strategy, cands: seq<Candidate>, a: nat, c: Choice)
    requires Undisturbed(select, s, cands, a) && c == Choose(s, cands) && c.pick.Some?
    ensures Undisturbed(select, c.strategy, RemoveAt(cands, c.pick.value), a + 1)
  {
    var rest := RemoveAt(cands, c.pick.value);
    forall list: seq<string>, b: nat | a + 1 <= b && |list| == |rest| - (b - (a + 1))
      ensures select(list, b) == Offered(c.strategy, rest, b - (a + 1))
    {
      assert Offered(s, cands, b - a) == Offered(c.strategy, rest, b - a - 1);
    }
  }

  lemma {:induction false} SelectedFirst(select: Selection, s: Strategy, cands: seq<Candidate>, a: nat)
    requires Undisturbed(select, s, cands, a)
    ensures select(Ids(cands), a) == Choose(s, cands).pick
  {
    assert Offered(s, cands, 0) == Choose(s, cands).pick;
  }

  /** The two loops end alike. */
  ghost predicate SameEnd(e: Ending, r: Search) {
    r.refused == e.refused && r.key == if e.Took? then Some(e.key) else None
  }

  lemma {:induction false} EndsNow(s: Strategy, cands: seq<Candidate>, attempts: nat, select: Selection, taken: Moment)
    requires InRange(select) && Undisturbed(select, s, cands, attempts)
    requires forall k, a: nat :: 0 <= k < |cands| ==> taken(cands[k].id, a) == cands[k].acquirable
    requires attempts < |cands| && Choose(s, cands).pick.Some? ==> cands[Choose(s, cands).pick.value].acquirable
    ensures SameEnd(TryAmong(Ids(cands), attempts, select, taken), Try(s, cands, attempts))
  {
    SelectedFirst(select, s, cands, attempts);
  }

  lemma {:induction false} EndsLater(s: Strategy, cands: seq<Candidate>, attempts: nat, select: Selection,
          taken: Moment, c: Choice)
    requires InRange(select) && Undisturbed(select, s, cands, attempts)
    requires attempts < |cands| && c == Choose(s, cands) && c.pick.Some?
    requires !cands[c.pick.value].acquirable && !taken(cands[c.pick.value].id, attempts)
    requires var rest := RemoveAt(cands, c.pick.value);
      SameEnd(TryAmong(Ids(rest), attempts + 1, select, taken), Try(c.strategy, rest, attempts + 1))
    ensures SameEnd(TryAmong(Ids(cands), attempts, select, taken), Try(s, cands, attempts))
  {
    SelectedFirst(select, s, cands, attempts);
    TryStep(s, cands, attempts, c, RemoveAt(cands, c.pick.value));
    assert RemoveAt(Ids(cands), c.pick.value) == Ids(RemoveAt(cands, c.pick.value));
  }

  /** An undisturbed strategy is one of those interleavings. */
  lemma {:induction false} TryIsOneOfThem(s: Strategy, cands: seq<Candidate>, attempts: nat, select: Selection,
          taken: Moment)
    requires InRange(select) && Undisturbed(select, s, cands, attempts)
    requires forall k, a: nat :: 0 <= k < |cands| ==> taken(cands[k].id, a) == cands[k].acquirable
    ensures SameEnd(TryAmong(Ids(cands), attempts, select, taken), Try(s, cands, attempts))
    decreases |cands|
  {
    var c := Choose(s, cands);
    if attempts < |cands| && c.pick.Some? && !cands[c.pick.value].acquirable {
      StaysUndisturbed(select, s, cands, attempts, c);
      TryIsOneOfThem(c.strategy, RemoveAt(cands, c.pick.value), attempts + 1, select, taken);
      EndsLater(s, cands, attempts, select, taken, c);
    } else {
      EndsNow(s, cands, attempts, select, taken);
    }
  }

  // ----- when the promise of the comments is kept -----

  /** The keys as they are, in a state in which all of them can be taken. */
  function Freed(cands: seq<Candidate>): (free: seq<Candidate>)
    ensures |free| == |cands|
  {
    seq(|cands|, k requires 0 <= k < |cands| => cands[k].(acquirable := true))
  }

  /** A strategy sees only IDs and weights. */
  lemma SameChoice(s: Strategy, cands: seq<Candidate>, state: seq<Candidate>)
    requires Entries(state) == Entries(cands)
    ensures Choose(s, state) == Choose(s, cands)
  {
    assert |state| == |Entries(state)| == |Entries(cands)| == |cands|;
  }

  /** One key put back into a list, in a state of its own. */
  function Insert(rest: seq<Candidate>, i: nat, key: Candidate): (state: seq<Candidate>)
    requires i <= |rest|
    ensures |state| == |rest| + 1 && state[i] == key && RemoveAt(state, i) == rest
  {
    rest[..i] + [key] + rest[i..]
  }

  lemma {:induction false} SameEntries(cands: seq<Candidate>, rest: seq<Candidate>, i: nat, free: bool)
    requires i < |cands| == |rest| + 1 && Entries(rest) == Entries(RemoveAt(cands, i))
    ensures Entries(Insert(rest, i, cands[i].(acquirable := free))) == Entries(cands)
  {
    var state, other := Insert(rest, i, cands[i].(acquirable := free)), RemoveAt(cands, i);
    forall k | 0 <= k < |cands|
      ensures Entries(state)[k] == Entries(cands)[k]
    {
      if k < i {
        assert Entries(rest)[k] == Entries(other)[k];
      } else if i < k {
        assert Entries(rest)[k - 1] == Entries(other)[k - 1];
      }
    }
  }

  /** The first `bad` keys offered are refused. */
  ghost predicate StartsRefused(order: seq<Candidate>, bad: nat) {
    forall k :: 0 <= k < |order| && k < bad ==> !order[k].acquirable
  }

  lemma {:induction false} OneMoreRefused(s: Strategy, state: seq<Candidate>, c: Choice, rest: seq<Candidate>, bad: nat)
    requires c == Choose(s, state) && c.pick.Some? && rest == RemoveAt(state, c.pick.value)
    requires 0 < bad ==> !state[c.pick.value].acquirable && StartsRefused(Probes(c.strategy, rest), bad - 1)
    ensures StartsRefused(Probes(s, state), bad)
  {
    ProbesStep(s, state, c, rest);
  }

  lemma {:induction false} OneAmongTheRest(state: seq<Candidate>, i: nat)
    requires i < |state| && !AllRefused(RemoveAt(state, i))
    ensures !AllRefused(state)
  {
    var k :| 0 <= k < |state| - 1 && RemoveAt(state, i)[k].acquirable;
    assert state[if k < i then k else k + 1].acquirable;
  }

  /**
   The keys in a state in which the first `bad` that the strategy offers cannot be taken, and all
   others can: with fewer than all spoiled, or none offered, some key can be taken.
   */
  lemma {:induction false} Spoil(s: Strategy, cands: seq<Candidate>, bad: nat) returns (state: seq<Candidate>)
    ensures |state| == |cands| && Entries(state) == Entries(cands)
    ensures StartsRefused(Probes(s, state), bad)
    ensures bad < |cands| || (cands != [] && Choose(s, cands).pick.None?) ==> !AllRefused(state)
    ensures s.Rotating? && bad <= |cands| ==> Acquirable(state) == |cands| - bad
    decreases |cands|
  {
    var c := Choose(s, cands);
    if c.pick.None? {
      state := Freed(cands);
      assert Entries(state) == Entries(cands);
      SameChoice(s, cands, state);
      NoMoreProbes(s, state);
      assert cands != [] ==> state[0].acquirable;
    } else {
      var i, free := c.pick.value, bad == 0;
      var rest := Spoil(c.strategy, RemoveAt(cands, i), if free then 0 else bad - 1);
      state := Insert(rest, i, cands[i].(acquirable := free));
      SameEntries(cands, rest, i, free);
      SameChoice(s, cands, state);
      OneMoreRefused(s, state, c, rest, bad);
      AcquirableRemoveAt(state, i);
      if !free && bad < |cands| {
        OneAmongTheRest(state, i);
      }
    }
  }

  /** With all keys within reach spoiled, GetKey finds nothing. */
  lemma {:induction false} SpoiledGivesNil(s: Strategy, state: seq<Candidate>)
    requires StartsRefused(Probes(s, state), (|state| + 1) / 2)
    ensures GetKey(s, state).key.None?
  {
    GetKeyServesIffReachable(s, state);
  }

  /**
   The half bound is tight: for every pool of n keys and every counter there is a state in which
   floor(n/2) of the admitted keys can be taken and GetKey still returns nil.
   */
  lemma {:induction false} HalfIsTight(counter: nat, cands: seq<Candidate>) returns (state: seq<Candidate>)
    ensures Entries(state) == Entries(cands)
    ensures Acquirable(state) == |cands| / 2
    ensures GetKey(Rotating(counter), state).key.None?
  {
    state := Spoil(Rotating(counter), cands, (|cands| + 1) / 2);
    SpoiledGivesNil(Rotating(counter), state);
  }

  /** What the comments promise of one call: nil only when no admitted key can be taken. */
  ghost predicate NilMeansNone(s: Strategy, cands: seq<Candidate>) {
    GetKey(s, cands).key.None? ==> AllRefused(cands)
  }

  /** The promise in every state that these keys can be in. */
  ghost predicate PromiseKept(s: Strategy, cands: seq<Candidate>) {
    forall state: seq<Candidate> :: Entries(state) == Entries(cands) ==> NilMeansNone(s, state)
  }

  /** A single key that the strategy offers is tried. */
  lemma {:induction false} OnlyKeyIsTried(s: Strategy, cands: seq<Candidate>, state: seq<Candidate>)
    requires |cands| == 1 && Choose(s, cands).pick.Some? && Entries(state) == Entries(cands)
    ensures NilMeansNone(s, state)
  {
    assert |state| == |Entries(state)| == 1;
    SameChoice(s, cands, state);
    assert Choose(s, state).pick == Some(0);
    if !state[0].acquirable {
      assert AllRefused(state);
    }
  }

  /**
   When the promise is kept, for both strategies from any state of theirs: no key is admitted, or
   one is and the strategy offers it. With two or more admitted keys it always fails in some state.
   */
  lemma {:induction false} PromiseKeptIff(s: Strategy, cands: seq<Candidate>)
    ensures PromiseKept(s, cands) <==> cands == [] || (|cands| == 1 && Choose(s, cands).pick.Some?)
  {
    if cands == [] {
      assert forall state: seq<Candidate> :: Entries(state) == Entries(cands) ==> |state| == |Entries(state)| == 0;
    } else if |cands| == 1 && Choose(s, cands).pick.Some? {
      forall state: seq<Candidate> | Entries(state) == Entries(cands)
        ensures NilMeansNone(s, state)
      {
        OnlyKeyIsTried(s, cands, state);
      }
    } else {
      var state := Spoil(s, cands, (|cands| + 1) / 2);
      SpoiledGivesNil(s, state);
      assert !NilMeansNone(s, state);
    }
  }

  /** For rotation, whatever the counter: exactly when at most one key is admitted. */
  lemma {:induction false} PromiseKeptIffAtMostOneKey(counter: nat, cands: seq<Candidate>)
    ensures PromiseKept(Rotating(counter), cands) <==> |cands| <= 1
  {
    PromiseKeptIff(Rotating(counter), cands);
  }

  /** With weights: exactly when no key is admitted, or one whose accumulator its weight brings to 0 or more. */
  lemma {:induction false} WeightedPromiseKeptIff(w: Weights, cands: seq<Candidate>)
    ensures PromiseKept(Weighted(w), cands) <==>
      cands == [] || (|cands| == 1 && 0 <= At(w, cands[0].id) + cands[0].weight)
  {
    PromiseKeptIff(Weighted(w), cands);
    if |cands| == 1 {
      var ks := Entries(cands);
      CallChooses(w, ks);
      assert Chooses(w, ks, Next(w, ks).pick) && ks[0] == Entry(cands[0].id, cands[0].weight);
    }
  }

  // ----- the guard the comments intend -----

  /** The loop with the guard len(available) > 0. */
  function TryAll(s: Strategy, cands: seq<Candidate>): Option<string>
    decreases |cands|
  {
    var c := Choose(s, cands);
    match c.pick
    case None => None
    case Some(i) =>
      if cands[i].acquirable then Some(cands[i].id) else TryAll(c.strategy, RemoveAt(cands, i))
  }

  /** With that guard rotation is complete: nil exactly when no admitted key can be taken. */
  lemma {:induction false} GuardOnLengthIsComplete(counter: nat, cands: seq<Candidate>)
    ensures TryAll(Rotating(counter), cands).None? <==> AllRefused(cands)
    decreases |cands|
  {
    if cands != [] {
      var i := counter % |cands|;
      var rest := RemoveAt(cands, i);
      GuardOnLengthIsComplete(RoundRobin.Advance(counter), rest);
      if AllRefused(rest) && !cands[i].acquirable {
        forall k | 0 <= k < |cands|
          ensures !cands[k].acquirable
        {
          if k < i {
            assert !rest[k].acquirable;
          } else if i < k {
            assert !rest[k - 1].acquirable;
          }
        }
      }
      if AllRefused(cands) {
        assert forall k :: 0 <= k < |rest| ==> rest[k] == cands[if k < i then k else k + 1];
      }
    }
  }

  // ----- nil from the weighted strategy -----

  /**
   With weights GetKey can return nil although the only admitted key is free and no key was tried,
   from accumulators that Select itself produces: A(1), B(4) after three calls leaves A at -2, and A alone is
   then credited to -1 only.
   */
  lemma WeightedNilWithFreeKey()
    ensures var ks := [Entry("A", 1), Entry("B", 4)];
      var s1 := Next(map[], ks);
      var s2 := Next(s1.weights, ks);
      var s3 := Next(s2.weights, ks);
      GetKey(Weighted(s3.weights), [Candidate("A", 1, true)]).key.None?
  {
    var ks := [Entry("A", 1), Entry("B", 4)];
    assert "A" != "B" by { assert "A"[0] != "B"[0]; }
    assert ks[..1] == [Entry("A", 1)];
    assert Total([Entry("A", 1)]) == 1;
    var s1 := Next(map[], ks);
    TwoKeys(map[], ks, s1);
    var s2 := Next(s1.weights, ks);
    TwoKeys(s1.weights, ks, s2);
    var s3 := Next(s2.weights, ks);
    TwoKeys(s2.weights, ks, s3);
    assert At(s3.weights, "A") == -2;
    var alone := [Candidate("A", 1, true)];
    assert Entries(alone) == [Entry("A", 1)];
    CallChooses(s3.weights, Entries(alone));
  }
}
