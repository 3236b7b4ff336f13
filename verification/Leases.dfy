/**
 Leases under concurrency: any number of workers inside GetKey and processItem, interleaved with
 each other and with reloads (internal/keypool/manager.go, internal/worker/worker.go).

 A step is one critical section of a key's mutex. GetKey holds the pool's read lock from the start
 of its loop to its return, and a reload needs the write lock.
 */
module Leases {

  /**
   Where a worker is with respect to the pool. Objects are numbered, so a key that is deleted and added
   again is a new one.
   */
  datatype Phase =
    | Idle
    | Selecting            // in GetKey's loop, no slot taken
    | Trying(key: nat)     // slot taken, rate limit not checked yet
    | Holding(key: nat)    // GetKey has returned the key

  /** A key object: its concurrent limit and its currentConcurrent. */
  datatype Key = Key(limit: int, concurrent: nat)

  datatype State = State(objects: map<nat, Key>, listed: set<nat>, workers: seq<Phase>)

  datatype Step =
    | Begin(w: nat)
    | Acquire(w: nat, k: nat)        // TryConcurrentAcquire on a listed key, either result
    | PassRateLimit(w: nat)
    | FailRateLimit(w: nat)          // the rollback
    | GiveUp(w: nat)                 // GetKey returns nil
    | Release(w: nat)                // ReleaseKey after decryption failed or the call returned
    | Reload(rows: map<nat, int>)    // the objects listed afterwards, with their limits

  function TryAcquire(key: Key): (bool, Key) {
    if key.concurrent >= key.limit then (false, key) else (true, key.(concurrent := key.concurrent + 1))
  }

  function Released(key: Key): Key {
    if key.concurrent > 0 then key.(concurrent := key.concurrent - 1) else key
  }

  predicate ReadLocked(p: Phase) {
    p.Selecting? || p.Trying?
  }

  ghost predicate Enabled(s: State, step: Step) {
    match step
    case Begin(w) => w < |s.workers| && s.workers[w].Idle?
    case Acquire(w, k) => w < |s.workers| && s.workers[w].Selecting? && k in s.listed && k in s.objects
    case PassRateLimit(w) => w < |s.workers| && s.workers[w].Trying?
    case FailRateLimit(w) => w < |s.workers| && s.workers[w].Trying? && s.workers[w].key in s.objects
    case GiveUp(w) => w < |s.workers| && s.workers[w].Selecting?
    case Release(w) => w < |s.workers| && s.workers[w].Holding? && s.workers[w].key in s.objects
    case Reload(rows) =>
      && (forall w :: 0 <= w < |s.workers| ==> !ReadLocked(s.workers[w]))
      && (forall k :: k in rows && k in s.objects ==> k in s.listed)
  }

  ghost function Apply(s: State, step: Step): State
    requires Enabled(s, step)
  {
    match step
    case Begin(w) => s.(workers := s.workers[w := Selecting])
    case Acquire(w, k) =>
      var (ok, key) := TryAcquire(s.objects[k]);
      s.(objects := s.objects[k := key], workers := s.workers[w := if ok then Trying(k) else Selecting])
    case PassRateLimit(w) => s.(workers := s.workers[w := Holding(s.workers[w].key)])
    case FailRateLimit(w) =>
      var k := s.workers[w].key;
      s.(objects := s.objects[k := Released(s.objects[k])], workers := s.workers[w := Selecting])
    case GiveUp(w) => s.(workers := s.workers[w := Idle])
    case Release(w) =>
      var k := s.workers[w].key;
      s.(objects := s.objects[k := Released(s.objects[k])], workers := s.workers[w := Idle])
    case Reload(rows) =>
      State(Configured(s.objects, rows), rows.Keys, s.workers)
  }

  /** Known objects keep their count and take the new limit; unknown ones start at zero. */
  function Configured(objects: map<nat, Key>, rows: map<nat, int>): map<nat, Key> {
    objects + map k | k in rows :: Key(rows[k], if k in objects then objects[k].concurrent else 0)
  }

  predicate Has(p: Phase, k: nat) {
    (p.Trying? || p.Holding?) && p.key == k
  }

  /** How many workers hold a lease on object k, counting the transient one that may be rolled back. */
  function Held(workers: seq<Phase>, k: nat): nat {
    if workers == [] then 0
    else Held(workers[..|workers| - 1], k) + (if Has(workers[|workers| - 1], k) then 1 else 0)
  }

  ghost predicate Conserved(s: State) {
    && s.listed <= s.objects.Keys
    && (forall k :: k in s.objects ==> s.objects[k].concurrent == Held(s.workers, k))
    && (forall w :: 0 <= w < |s.workers| && (s.workers[w].Trying? || s.workers[w].Holding?) ==>
      s.workers[w].key in s.objects)
    && (forall k :: k !in s.objects ==> Held(s.workers, k) == 0)
  }

  ghost predicate Init(s: State) {
    s.objects == map[] && s.listed == {} && forall w :: 0 <= w < |s.workers| ==> s.workers[w].Idle?
  }

  /** A run: every step enabled where it is taken. */
  ghost predicate Run(states: seq<State>, steps: seq<Step>) {
    && |states| == |steps| + 1
    && Init(states[0])
    && forall t {:trigger steps[t]} :: 0 <= t < |steps| ==>
      Enabled(states[t], steps[t]) && states[t + 1] == Apply(states[t], steps[t])
  }

  lemma {:induction false} HeldUpdate(workers: seq<Phase>, w: nat, p: Phase, k: nat)
    requires w < |workers|
    ensures Held(workers[w := p], k) == Held(workers, k) - (if Has(workers[w], k) then 1 else 0)
      + (if Has(p, k) then 1 else 0)
  {
    var last := |workers| - 1;
    if w == last {
      assert workers[w := p][..last] == workers[..last];
    } else {
      HeldUpdate(workers[..last], w, p, k);
      assert workers[w := p][..last] == workers[..last][w := p];
    }
  }

  lemma {:induction false} HeldSome(workers: seq<Phase>, w: nat, k: nat)
    requires w < |workers| && Has(workers[w], k)
    ensures 1 <= Held(workers, k)
  {
    var last := |workers| - 1;
    if w != last {
      HeldSome(workers[..last], w, k);
    }
  }

  lemma {:induction false} HeldNone(workers: seq<Phase>, k: nat)
    requires forall w :: 0 <= w < |workers| ==> !Has(workers[w], k)
    ensures Held(workers, k) == 0
  {
    if workers != [] {
      HeldNone(workers[..|workers| - 1], k);
    }
  }

  /** One worker changes phase and at most one object its count, in step with each other. */
  lemma {:induction false} MoveConserves(s: State, next: State, w: nat)
    requires Conserved(s) && w < |s.workers| == |next.workers|
    requires next.listed == s.listed && next.objects.Keys == s.objects.Keys
    requires next.workers == s.workers[w := next.workers[w]]
    requires next.workers[w].Trying? || next.workers[w].Holding? ==> next.workers[w].key in next.objects
    requires forall k :: k in s.objects ==>
      next.objects[k].concurrent == s.objects[k].concurrent - (if Has(s.workers[w], k) then 1 else 0)
        + (if Has(next.workers[w], k) then 1 else 0)
    ensures Conserved(next)
  {
    forall k: nat
      ensures k in next.objects ==> next.objects[k].concurrent == Held(next.workers, k)
      ensures k !in next.objects ==> Held(next.workers, k) == 0
    {
      HeldUpdate(s.workers, w, next.workers[w], k);
    }
    forall v | 0 <= v < |next.workers| && (next.workers[v].Trying? || next.workers[v].Holding?)
      ensures next.workers[v].key in next.objects
    {
      if v != w {
        assert next.workers[v] == s.workers[v];
      }
    }
  }

  /** A release always finds a lease to give back: the zero guard never saturates. */
  lemma {:induction false} ReleaseNeverSaturates(s: State, w: nat)
    requires Conserved(s) && w < |s.workers| && (s.workers[w].Trying? || s.workers[w].Holding?)
    ensures s.workers[w].key in s.objects && 1 <= s.objects[s.workers[w].key].concurrent
  {
    HeldSome(s.workers, w, s.workers[w].key);
  }

  lemma {:induction false} StepConserves(s: State, step: Step)
    requires Conserved(s) && Enabled(s, step)
    ensures Conserved(Apply(s, step))
  {
    var next := Apply(s, step);
    match step {
      case Begin(w) => MoveConserves(s, next, w);
      case Acquire(w, k) => MoveConserves(s, next, w);
      case PassRateLimit(w) => MoveConserves(s, next, w);
      case FailRateLimit(w) =>
        ReleaseNeverSaturates(s, w);
        MoveConserves(s, next, w);
      case GiveUp(w) => MoveConserves(s, next, w);
      case Release(w) =>
        ReleaseNeverSaturates(s, w);
        MoveConserves(s, next, w);
      case Reload(rows) =>
        forall k | k in next.objects
          ensures next.objects[k].concurrent == Held(next.workers, k)
        {
        }
    }
  }

  /**
   Lease conservation: in every reachable state, for every key object, listed or deleted meanwhile,
   currentConcurrent is the number of workers that hold a lease on it.
   */
  lemma {:induction false} LeasesConserved(states: seq<State>, steps: seq<Step>, t: nat)
    requires Run(states, steps) && t <= |steps|
    ensures Conserved(states[t])
  {
    if t == 0 {
      forall k: nat
        ensures Held(states[0].workers, k) == 0
      {
        HeldNone(states[0].workers, k);
      }
    } else {
      LeasesConserved(states, steps, t - 1);
      StepConserves(states[t - 1], steps[t - 1]);
    }
  }

  /**
   Every successful acquire ends at or below the limit then in force, although a reload may lower
   limits below what is held.
   */
  lemma {:induction false} AcquireWithinLimit(states: seq<State>, steps: seq<Step>, t: nat, w: nat, k: nat)
    requires Run(states, steps) && t < |steps| && steps[t] == Acquire(w, k)
    requires states[t + 1].workers[w].Trying?
    ensures Held(states[t + 1].workers, k) <= states[t + 1].objects[k].limit
    ensures Held(states[t + 1].workers, k) == Held(states[t].workers, k) + 1
  {
    LeasesConserved(states, steps, t);
    LeasesConserved(states, steps, t + 1);
  }

  /** An acquire takes a slot exactly when the count is below the limit, and otherwise changes nothing. */
  lemma {:induction false} AcquireSucceedsIff(states: seq<State>, steps: seq<Step>, t: nat, w: nat, k: nat)
    requires Run(states, steps) && t < |steps| && steps[t] == Acquire(w, k)
    ensures k in states[t].objects
    ensures states[t + 1].workers[w].Trying? <==> Held(states[t].workers, k) < states[t].objects[k].limit
    ensures !states[t + 1].workers[w].Trying? ==> states[t + 1] == states[t]
  {
    LeasesConserved(states, steps, t);
    assert Enabled(states[t], steps[t]) && states[t + 1] == Apply(states[t], steps[t]);
    var s := states[t];
    assert s.objects[k := s.objects[k]] == s.objects && s.workers[w := s.workers[w]] == s.workers;
  }

  /** After a reload every listed key has the limit of its row, and holds the leases it held before. */
  lemma {:induction false} ReloadTakesLimits(states: seq<State>, steps: seq<Step>, t: nat, rows: map<nat, int>, k: nat)
    requires Run(states, steps) && t < |steps| && steps[t] == Reload(rows) && k in rows
    ensures k in states[t + 1].listed && k in states[t + 1].objects
    ensures states[t + 1].objects[k].limit == rows[k]
    ensures states[t + 1].objects[k].concurrent == Held(states[t].workers, k)
  {
    LeasesConserved(states, steps, t);
    LeasesConserved(states, steps, t + 1);
  }

  /** In every reachable state a worker that is about to release finds a positive count. */
  lemma {:induction false} NoReleaseSaturates(states: seq<State>, steps: seq<Step>, t: nat, w: nat)
    requires Run(states, steps) && t < |steps| && (steps[t] == Release(w) || steps[t] == FailRateLimit(w))
    ensures var k := states[t].workers[w].key;
      k in states[t].objects && states[t + 1].objects[k].concurrent == states[t].objects[k].concurrent - 1
  {
    LeasesConserved(states, steps, t);
    ReleaseNeverSaturates(states[t], w);
  }

  /** The machine goes from s to next by this step. */
  ghost predicate Moves(s: State, step: Step, next: State) {
    Enabled(s, step) && next == Apply(s, step)
  }

  /** s with worker w in another phase, and one more lease on k. */
  function WithLease(s: State, w: nat, k: nat, p: Phase): State
    requires w < |s.workers| && k in s.objects
  {
    s.(objects := s.objects[k := s.objects[k].(concurrent := s.objects[k].concurrent + 1)],
       workers := s.workers[w := p])
  }

  /**
   An idle worker can take any listed key that is below its limit, and the lease's life is a round trip:
   returned and released later, or rolled back and given up, everything is as it was before.
   */
  lemma {:induction false} LeaseRoundTrip(s: State, w: nat, k: nat)
    requires Conserved(s) && w < |s.workers| && s.workers[w].Idle? && k in s.listed
    requires Held(s.workers, k) < s.objects[k].limit
    ensures var begun := s.(workers := s.workers[w := Selecting]);
      var trying, holding := WithLease(s, w, k, Trying(k)), WithLease(s, w, k, Holding(k));
      && Moves(s, Begin(w), begun) && Moves(begun, Acquire(w, k), trying)
      && Moves(trying, PassRateLimit(w), holding) && Moves(holding, Release(w), s)
      && Moves(trying, FailRateLimit(w), begun) && Moves(begun, GiveUp(w), s)
  {
    var begun := s.(workers := s.workers[w := Selecting]);
    var trying, holding := WithLease(s, w, k, Trying(k)), WithLease(s, w, k, Holding(k));
    assert s.workers[w := Selecting][w := Idle] == s.workers;
    assert s.workers[w := Selecting][w := Trying(k)] == s.workers[w := Trying(k)];
    assert s.workers[w := Trying(k)][w := Holding(k)] == s.workers[w := Holding(k)];
    assert s.workers[w := Trying(k)][w := Selecting] == s.workers[w := Selecting];
    assert s.workers[w := Holding(k)][w := Idle] == s.workers;
    assert trying.objects[k := s.objects[k]] == s.objects;
  }

  /**
   A reload waits for the readers only: it is possible exactly when no worker is inside GetKey, and
   leaves all leases.
   */
  lemma {:induction false} ReloadWaitsForReaders(s: State, rows: map<nat, int>)
    requires Conserved(s) && forall k :: k in rows && k in s.objects ==> k in s.listed
    ensures Enabled(s, Reload(rows)) <==>
      forall w :: 0 <= w < |s.workers| ==> s.workers[w].Idle? || s.workers[w].Holding?
    ensures Enabled(s, Reload(rows)) ==>
      Apply(s, Reload(rows)).workers == s.workers && Conserved(Apply(s, Reload(rows)))
  {
    if Enabled(s, Reload(rows)) {
      StepConserves(s, Reload(rows));
    }
  }

  /** When no worker is busy every count is back to zero: nothing leaks over any run. */
  lemma {:induction false} QuietMeansZero(states: seq<State>, steps: seq<Step>, t: nat)
    requires Run(states, steps) && t <= |steps|
    requires forall w :: 0 <= w < |states[t].workers| ==> states[t].workers[w].Idle?
    ensures forall k :: k in states[t].objects ==> states[t].objects[k].concurrent == 0
  {
    LeasesConserved(states, steps, t);
    forall k | k in states[t].objects
      ensures states[t].objects[k].concurrent == 0
    {
      HeldNone(states[t].workers, k);
    }
  }
}
