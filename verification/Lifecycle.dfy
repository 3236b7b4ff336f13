/**
 The life of a request (internal/worker/worker.go): submission, queue, worker, HTTP call, delayed
 retry and final status, with any number of workers interleaved with the queue's own goroutines.
 The database is a map from request ID to the columns that matter; its writes succeed.
 */
module Lifecycle {
  import opened PriorityQueues
  import Q = Queues
  import D = Dispatcher
  import B = Backoff

  datatype Status = Pending | Processing | Success | Failed

  predicate Terminal(status: Status) {
    status.Success? || status.Failed?
  }

  /** One failure retry: the attempt number passed to the backoff, and the random number it drew. */
  datatype Retry = Retry(attempt: nat, unit: real)

  /** The row of a request, and what has been done for it: HTTP calls made and failure retries scheduled. */
  datatype Record = Record(status: Status, attempts: nat, calls: nat, retries: seq<Retry>)

  /** Where a worker is in processItem; `attempts` is the value it read from the row. */
  datatype Phase =
    | Idle
    | Loading(item: Item)
    | NeedsKey(item: Item, attempts: nat)
    | Keyed(item: Item, attempts: nat)      // marked processing, before decryption
    | InFlight(item: Item, attempts: nat)   // HTTP call made
    | Ended

  datatype Answer = NetworkError | Code(status: int)

  datatype State = State(
    queue: D.State,
    workers: seq<Phase>,
    timers: multiset<Item>,     // in delayedEnqueue
    arriving: multiset<Item>,   // stored by the handler, not enqueued yet
    finished: multiset<Item>,   // completed, failed, rejected, evicted, dropped or cancelled
    db: map<string, Record>,
    born: set<Item>,
    cancelled: bool,            // the root context
    cfg: B.Config)

  datatype Step =
    | Submit(x: Item)
    | Offer(x: Item, fromTimer: bool, v: Q.Verdict)   // Enqueue by the handler or by a fired timer
    | CancelTimer(x: Item)
    | Cancel
    | Internal(q: D.Step)                             // queue steps that hand nothing over
    | Lose(q: D.Step, x: Item)                        // queue steps that drop x
    | Take(w: nat, q: D.Step, x: Item)                // a worker receives x
    | EndWorker(w: nat)
    | Skip(w: nat)                                    // row missing, unreadable, or already terminal
    | Load(w: nat)
    | NoKey(w: nat)
    | GotKey(w: nat)
    | DecryptFails(w: nat, unit: real)
    | Call(w: nat)
    | Finish(w: nat, answer: Answer, unit: real)

  predicate Busy(p: Phase) {
    !p.Idle? && !p.Ended?
  }

  predicate Holds(p: Phase, x: Item) {
    Busy(p) && p.item == x
  }

  function Row(s: State, x: Item): Record
    requires x.RequestID in s.db
  {
    s.db[x.RequestID]
  }

  /** How the code sorts answers. */
  predicate Retryable(a: Answer) {
    a.NetworkError? || a.status == 429 || a.status >= 500
  }

  predicate Succeeded(a: Answer) {
    a.Code? && 200 <= a.status < 300
  }

  predicate HandsOver(q: D.Step, qs: D.State, x: Item) {
    (q.Deliver? && qs.pc.Sending? && qs.pc.item == x) || (q.DrainSend? && q.x == x)
  }

  predicate Drops(q: D.Step, qs: D.State, x: Item) {
    (q.AbortSend? && qs.pc.Sending? && qs.pc.item == x) || (q.DrainDrop? && q.x == x)
  }

  ghost predicate Enabled(s: State, step: Step) {
    match step
    case Submit(x) => x !in s.born && x.RequestID !in s.db
    case Offer(x, fromTimer, v) => x in (if fromTimer then s.timers else s.arriving)
      && D.Enabled(s.queue, D.Enqueue(x, v))
    case CancelTimer(x) => s.cancelled && x in s.timers
    case Cancel => !s.cancelled
    case Internal(q) =>
      D.Enabled(s.queue, q) && !q.Enqueue? && !q.Deliver? && !q.AbortSend? && !q.DrainSend? && !q.DrainDrop?
    case Lose(q, x) => D.Enabled(s.queue, q) && Drops(q, s.queue, x)
    case Take(w, q, x) => w < |s.workers| && s.workers[w].Idle? && D.Enabled(s.queue, q) && HandsOver(q, s.queue, x)
    case EndWorker(w) => w < |s.workers| && s.workers[w].Idle? && (s.cancelled || s.queue.pc.Stopped?)
    case Skip(w) => w < |s.workers| && s.workers[w].Loading?
    case Load(w) =>
      && w < |s.workers| && s.workers[w].Loading? && s.workers[w].item.RequestID in s.db
      && !Terminal(Row(s, s.workers[w].item).status)
    case NoKey(w) => w < |s.workers| && s.workers[w].NeedsKey?
    case GotKey(w) => w < |s.workers| && s.workers[w].NeedsKey? && s.workers[w].item.RequestID in s.db
    case DecryptFails(w, unit) =>
      w < |s.workers| && s.workers[w].Keyed? && s.workers[w].item.RequestID in s.db && B.Jitter(unit)
    case Call(w) => w < |s.workers| && s.workers[w].Keyed? && s.workers[w].item.RequestID in s.db
    case Finish(w, answer, unit) =>
      w < |s.workers| && s.workers[w].InFlight? && s.workers[w].item.RequestID in s.db && B.Jitter(unit)
  }

  /** A worker lets go of its item: to a timer or for good, with the row as it then is. */
  function LetGo(s: State, w: nat, row: Record, again: bool): State
    requires w < |s.workers| && Busy(s.workers[w])
  {
    var x := s.workers[w].item;
    s.(workers := s.workers[w := Idle],
       timers := s.timers + (if again then multiset{x} else multiset{}),
       finished := s.finished + (if again then multiset{} else multiset{x}),
       db := s.db[x.RequestID := row])
  }

  /** handleFailure, for a worker that read `attempts`. */
  function HandleFailure(s: State, w: nat, attempts: nat, unit: real): State
    requires w < |s.workers| && Busy(s.workers[w]) && s.workers[w].item.RequestID in s.db
  {
    var row := Row(s, s.workers[w].item);
    if B.ShouldRetry(attempts + 1, s.cfg) then
      LetGo(s, w, row.(retries := row.retries + [Retry(attempts, unit)]), true)
    else
      LetGo(s, w, row.(status := Failed), false)
  }

  ghost function Apply(s: State, step: Step): State
    requires Enabled(s, step)
  {
    match step
    case Submit(x) =>
      s.(born := s.born + {x}, arriving := s.arriving + multiset{x},
         db := s.db[x.RequestID := Record(Pending, 0, 0, [])])
    case Offer(x, fromTimer, v) =>
      var left := if fromTimer then s.(timers := s.timers - multiset{x}) else s.(arriving := s.arriving - multiset{x});
      left.(queue := D.Apply(s.queue, D.Enqueue(x, v)),
            finished := s.finished + (if Q.Admitted(v) then D.Evicted(v) else multiset{x}))
    case CancelTimer(x) => s.(timers := s.timers - multiset{x}, finished := s.finished + multiset{x})
    case Cancel => s.(cancelled := true)
    case Internal(q) => s.(queue := D.Apply(s.queue, q))
    case Lose(q, x) => s.(queue := D.Apply(s.queue, q), finished := s.finished + multiset{x})
    case Take(w, q, x) => s.(queue := D.Apply(s.queue, q), workers := s.workers[w := Loading(x)])
    case EndWorker(w) => s.(workers := s.workers[w := Ended])
    case Skip(w) => s.(workers := s.workers[w := Idle], finished := s.finished + multiset{s.workers[w].item})
    case Load(w) => s.(workers := s.workers[w := NeedsKey(s.workers[w].item, Row(s, s.workers[w].item).attempts)])
    case NoKey(w) => s.(workers := s.workers[w := Idle], timers := s.timers + multiset{s.workers[w].item})
    case GotKey(w) =>
      var p := s.workers[w];
      s.(workers := s.workers[w := Keyed(p.item, p.attempts)],
         db := s.db[p.item.RequestID := Row(s, p.item).(status := Processing, attempts := p.attempts + 1)])
    case DecryptFails(w, unit) => HandleFailure(s, w, s.workers[w].attempts, unit)
    case Call(w) =>
      var p := s.workers[w];
      s.(workers := s.workers[w := InFlight(p.item, p.attempts)],
         db := s.db[p.item.RequestID := Row(s, p.item).(calls := Row(s, p.item).calls + 1)])
    case Finish(w, answer, unit) =>
      var p := s.workers[w];
      if Succeeded(answer) then LetGo(s, w, Row(s, p.item).(status := Success), false)
      else if Retryable(answer) then HandleFailure(s, w, p.attempts, unit)
      else LetGo(s, w, Row(s, p.item).(status := Failed), false)
  }

  ghost predicate Init(s: State) {
    && D.Init(s.queue)
    && (forall w :: 0 <= w < |s.workers| ==> s.workers[w].Idle?)
    && s.timers == s.arriving == s.finished == multiset{}
    && s.db == map[] && s.born == {}
    && 1 <= s.cfg.maxAttempts
  }

  ghost predicate Run(states: seq<State>, steps: seq<Step>) {
    && |states| == |steps| + 1
    && Init(states[0])
    && forall t {:trigger steps[t]} :: 0 <= t < |steps| ==>
      Enabled(states[t], steps[t]) && states[t + 1] == Apply(states[t], steps[t])
  }

  // ----- places -----

  /** Items that no worker holds and that can still come back. */
  ghost function Waiting(s: State): multiset<Item> {
    s.queue.heap + D.Hand(s.queue) + s.timers + s.arriving
  }

  /** How many workers hold x. */
  function Held(workers: seq<Phase>, x: Item): nat {
    if workers == [] then 0
    else Held(workers[..|workers| - 1], x) + (if Holds(workers[|workers| - 1], x) then 1 else 0)
  }

  /** In how many places x is. */
  ghost function Places(s: State, x: Item): nat {
    Waiting(s)[x] + Held(s.workers, x) + s.finished[x]
  }

  // ----- invariants -----

  /** What holds of the row of every request ever submitted. */
  ghost predicate Sound(row: Record, cfg: B.Config) {
    && row.calls <= row.attempts <= cfg.maxAttempts
    && |row.retries| < cfg.maxAttempts
    && forall k :: 0 <= k < |row.retries| ==> row.retries[k].attempt == k && B.Jitter(row.retries[k].unit)
  }

  /** Not being worked on: attempts are left, and every keyed pass so far was followed by one retry. */
  ghost predicate Ready(row: Record, cfg: B.Config) {
    !Terminal(row.status) && row.attempts < cfg.maxAttempts && |row.retries| == row.attempts
  }

  ghost predicate PhaseOk(p: Phase, row: Record, cfg: B.Config) {
    match p
    case Loading(_) => Ready(row, cfg)
    case NeedsKey(_, attempts) => Ready(row, cfg) && row.attempts == attempts
    case Keyed(_, attempts) => !Terminal(row.status) && row.attempts == attempts + 1 == |row.retries| + 1
      && row.calls <= attempts
    case InFlight(_, attempts) => !Terminal(row.status) && row.attempts == attempts + 1 == |row.retries| + 1
    case _ => true
  }

  /** Every submitted request is in exactly one place, and no two share an ID. */
  ghost predicate Unique(s: State) {
    && (forall x :: x in s.born ==> Places(s, x) == 1 && x.RequestID in s.db)
    && (forall x, y :: x in s.born && y in s.born && x != y ==> x.RequestID != y.RequestID)
    && (forall x :: x in s.finished ==> x in s.born)
  }

  ghost predicate WorkerOk(s: State, p: Phase) {
    Busy(p) ==> p.item in s.born && p.item.RequestID in s.db && PhaseOk(p, Row(s, p.item), s.cfg)
  }

  /** The row of every request is sound, and final only when the request is finished. */
  ghost predicate RowsSound(s: State) {
    forall x :: x in s.born ==> x.RequestID in s.db && RowSound(s, x)
  }

  ghost predicate RowSound(s: State, x: Item)
    requires x.RequestID in s.db
  {
    Sound(Row(s, x), s.cfg) && (x !in s.finished ==> !Terminal(Row(s, x).status))
  }

  ghost predicate WaitingReady(s: State) {
    forall x :: x in Waiting(s) ==> x in s.born && x.RequestID in s.db && Ready(Row(s, x), s.cfg)
  }

  ghost predicate WorkersOk(s: State) {
    forall w :: 0 <= w < |s.workers| ==> WorkerOk(s, s.workers[w])
  }

  ghost predicate Inv(s: State) {
    Unique(s) && 1 <= s.cfg.maxAttempts && RowsSound(s) && WaitingReady(s) && WorkersOk(s)
  }

  // ----- effects on places -----

  ghost function InQueue(q: D.State): multiset<Item> {
    q.heap + D.Hand(q)
  }

  lemma {:induction false} OfferEffect(q: D.State, x: Item, v: Q.Verdict)
    requires D.Enabled(q, D.Enqueue(x, v))
    ensures InQueue(D.Apply(q, D.Enqueue(x, v))) + (if Q.Admitted(v) then D.Evicted(v) else multiset{x})
      == InQueue(q) + multiset{x}
  {
    if v.Evicting? {
      D.TakenOut(q.heap, v.worst);
    }
  }

  lemma {:induction false} LeaveEffect(q: D.State, step: D.Step, x: Item)
    requires D.Enabled(q, step) && (HandsOver(step, q, x) || Drops(step, q, x))
    ensures InQueue(q) == InQueue(D.Apply(q, step)) + multiset{x}
  {
    if step.DrainSend? || step.DrainDrop? {
      D.TakenOut(q.heap, x);
    }
  }

  lemma {:induction false} InternalEffect(q: D.State, step: D.Step)
    requires D.Enabled(q, step) && !step.Enqueue? && !step.Deliver? && !step.AbortSend? && !step.DrainSend?
      && !step.DrainDrop?
    ensures InQueue(D.Apply(q, step)) == InQueue(q)
  {
    if step.Pop? {
      D.TakenOut(q.heap, step.x);
    }
  }

  lemma {:induction false} HeldUpdate(workers: seq<Phase>, w: nat, p: Phase, x: Item)
    requires w < |workers|
    ensures Held(workers[w := p], x) == Held(workers, x) - (if Holds(workers[w], x) then 1 else 0)
      + (if Holds(p, x) then 1 else 0)
  {
    var last := |workers| - 1;
    if w == last {
      assert workers[w := p][..last] == workers[..last];
    } else {
      HeldUpdate(workers[..last], w, p, x);
      assert workers[w := p][..last] == workers[..last][w := p];
    }
  }

  lemma {:induction false} HeldSome(workers: seq<Phase>, w: nat, x: Item)
    requires w < |workers| && Holds(workers[w], x)
    ensures 1 <= Held(workers, x)
  {
    var last := |workers| - 1;
    if w != last {
      HeldSome(workers[..last], w, x);
    }
  }

  lemma {:induction false} HeldTwice(workers: seq<Phase>, v: nat, w: nat, x: Item)
    requires v < w < |workers| && Holds(workers[v], x) && Holds(workers[w], x)
    ensures 2 <= Held(workers, x)
  {
    var last := |workers| - 1;
    if w == last {
      HeldSome(workers[..last], v, x);
    } else {
      HeldTwice(workers[..last], v, w, x);
    }
  }

  // ----- what uniqueness gives -----

  /** An item that a worker holds is nowhere else. */
  lemma {:induction false} OnlyThere(s: State, w: nat, x: Item)
    requires Unique(s) && w < |s.workers| && Holds(s.workers[w], x) && x in s.born
    ensures x !in Waiting(s) && x !in s.finished
    ensures forall v :: 0 <= v < |s.workers| && v != w ==> !Holds(s.workers[v], x)
  {
    HeldSome(s.workers, w, x);
    forall v | 0 <= v < |s.workers| && v != w && Holds(s.workers[v], x)
      ensures 2 <= Held(s.workers, x)
    {
      if v < w {
        HeldTwice(s.workers, v, w, x);
      } else {
        HeldTwice(s.workers, w, v, x);
      }
    }
  }

  // ----- steps that only move waiting items -----

  /** Waiting items leave for the finished ones, or nothing moves at all. */
  lemma {:induction false} MovesKeepInv(s: State, next: State, out: multiset<Item>)
    requires Inv(s)
    requires next.workers == s.workers && next.db == s.db && next.born == s.born && next.cfg == s.cfg
    requires Waiting(s) == Waiting(next) + out && next.finished == s.finished + out
    ensures Inv(next)
  {
    forall x | x in s.born
      ensures Places(next, x) == 1
    {
      assert Places(s, x) == 1;
    }
    forall w | 0 <= w < |next.workers|
      ensures WorkerOk(next, next.workers[w])
    {
      assert WorkerOk(s, s.workers[w]);
    }
  }

  lemma Regroup(q: multiset<Item>, after: multiset<Item>, timers: multiset<Item>, arriving: multiset<Item>,
          out: multiset<Item>)
    requires q == after + out
    ensures q + timers + arriving == after + timers + arriving + out
  {
  }

  lemma RegroupOffer(q: multiset<Item>, after: multiset<Item>, side: multiset<Item>, other: multiset<Item>,
          out: multiset<Item>, x: Item)
    requires after + out == q + multiset{x} && x in side
    ensures q + side + other == after + (side - multiset{x}) + other + out
    ensures q + other + side == after + other + (side - multiset{x}) + out
  {
    var rest := side - multiset{x};
    D.TakenOut(side, x);
    assert after + rest + other + out == (after + out) + rest + other;
    assert (q + multiset{x}) + rest + other == q + (rest + multiset{x}) + other;
    assert after + other + rest + out == (after + out) + other + rest;
    assert (q + multiset{x}) + other + rest == q + other + (rest + multiset{x});
  }

  lemma {:induction false} OfferWaiting(s: State, x: Item, fromTimer: bool, v: Q.Verdict)
    requires Enabled(s, Offer(x, fromTimer, v))
    ensures Waiting(s) == Waiting(Apply(s, Offer(x, fromTimer, v)))
      + (if Q.Admitted(v) then D.Evicted(v) else multiset{x})
  {
    var q, after := InQueue(s.queue), InQueue(D.Apply(s.queue, D.Enqueue(x, v)));
    var out := if Q.Admitted(v) then D.Evicted(v) else multiset{x};
    OfferEffect(s.queue, x, v);
    if fromTimer {
      RegroupOffer(q, after, s.timers, s.arriving, out, x);
    } else {
      RegroupOffer(q, after, s.arriving, s.timers, out, x);
    }
  }

  // ----- steps of one worker -----

  datatype Where = Kept | Back | Out

  /**
   Worker w, holding x, moves on: it keeps x, or passes it to a timer or to the finished ones; only the
   row of x changes.
   */
  ghost predicate WorkerMove(s: State, next: State, w: nat, x: Item, row: Record, dest: Where) {
    && w < |s.workers| == |next.workers| && Holds(s.workers[w], x)
    && next.workers == s.workers[w := next.workers[w]]
    && (if dest.Kept? then Holds(next.workers[w], x) else !Busy(next.workers[w]))
    && Waiting(next) == Waiting(s) + (if dest.Back? then multiset{x} else multiset{})
    && next.finished == s.finished + (if dest.Out? then multiset{x} else multiset{})
    && next.born == s.born && next.cfg == s.cfg && next.db == s.db[x.RequestID := row]
    && Sound(row, s.cfg) && PhaseOk(next.workers[w], row, s.cfg)
    && (dest.Back? ==> Ready(row, s.cfg))
    && (!dest.Out? ==> !Terminal(row.status))
  }

  lemma {:induction false} WorkerMoveUnique(s: State, next: State, w: nat, x: Item, row: Record, dest: Where)
    requires Inv(s) && WorkerMove(s, next, w, x, row, dest)
    ensures Unique(next)
  {
    assert WorkerOk(s, s.workers[w]);
    forall y | y in s.born
      ensures Places(next, y) == 1 && y.RequestID in next.db
    {
      HeldUpdate(s.workers, w, next.workers[w], y);
      assert Places(s, y) == 1;
    }
  }

  /** The rows of all other requests are untouched, and x is where its row says it may be. */
  lemma {:induction false} WorkerMoveKeepsInv(s: State, next: State, w: nat, x: Item, row: Record, dest: Where)
    requires Inv(s) && WorkerMove(s, next, w, x, row, dest)
    ensures Inv(next)
  {
    assert WorkerOk(s, s.workers[w]);
    WorkerMoveUnique(s, next, w, x, row, dest);
    OnlyThere(s, w, x);
    forall y | y in s.born && y != x
      ensures Row(next, y) == Row(s, y)
    {
    }
    forall y | y in Waiting(next)
      ensures y in next.born && Ready(Row(next, y), next.cfg)
    {
      assert y in Waiting(s) || y == x;
    }
    forall v | 0 <= v < |next.workers|
      ensures WorkerOk(next, next.workers[v])
    {
      if v != w {
        assert WorkerOk(s, s.workers[v]) && next.workers[v] == s.workers[v];
      }
    }
  }

  // ----- every step keeps the invariant -----

  lemma {:induction false} NowhereYet(s: State, x: Item)
    requires Inv(s) && x !in s.born
    ensures Places(s, x) == 0
  {
    if 0 < Held(s.workers, x) {
      HeldBy(s, x);
    }
  }

  /** x enters with a new ID and a fresh row. */
  ghost predicate Enters(s: State, next: State, x: Item) {
    && x !in s.born && x.RequestID !in s.db
    && next.born == s.born + {x} && next.db == s.db[x.RequestID := Record(Pending, 0, 0, [])]
    && Waiting(next) == Waiting(s) + multiset{x}
    && next.workers == s.workers && next.finished == s.finished && next.cfg == s.cfg
  }

  lemma {:induction false} OldRowsStay(s: State, next: State, x: Item)
    requires Inv(s) && Enters(s, next, x)
    ensures forall y :: y in s.born ==>
      y.RequestID != x.RequestID && y.RequestID in next.db && Row(next, y) == Row(s, y)
  {
    forall y | y in s.born
      ensures y.RequestID != x.RequestID && y.RequestID in next.db && Row(next, y) == Row(s, y)
    {
      assert y.RequestID in s.db;
    }
  }

  lemma {:induction false} EntryPlace(s: State, next: State, x: Item, y: Item)
    requires Inv(s) && Enters(s, next, x) && y in next.born
    ensures Places(next, y) == 1
  {
    if y == x {
      NowhereYet(s, x);
    } else {
      assert Places(s, y) == 1;
    }
  }

  lemma {:induction false} EntryPlaces(s: State, next: State, x: Item)
    requires Inv(s) && Enters(s, next, x)
    ensures forall y :: y in next.born ==> Places(next, y) == 1
  {
    forall y | y in next.born
      ensures Places(next, y) == 1
    {
      EntryPlace(s, next, x, y);
    }
  }

  lemma {:induction false} EntryIds(s: State, next: State, x: Item)
    requires Inv(s) && Enters(s, next, x)
    ensures forall y, z :: y in next.born && z in next.born && y != z ==> y.RequestID != z.RequestID
  {
    OldRowsStay(s, next, x);
  }

  lemma {:induction false} EntryRowsThere(s: State, next: State, x: Item)
    requires Inv(s) && Enters(s, next, x)
    ensures forall y :: y in next.born ==> y.RequestID in next.db
  {
    OldRowsStay(s, next, x);
  }

  lemma {:induction false} EntryUnique(s: State, next: State, x: Item)
    requires Inv(s) && Enters(s, next, x)
    ensures Unique(next)
  {
    EntryPlaces(s, next, x);
    EntryIds(s, next, x);
    EntryRowsThere(s, next, x);
  }

  lemma {:induction false} EntryWorkers(s: State, next: State, x: Item)
    requires Inv(s) && Enters(s, next, x)
    ensures WorkersOk(next)
  {
    OldRowsStay(s, next, x);
    forall w | 0 <= w < |next.workers|
      ensures WorkerOk(next, next.workers[w])
    {
      assert WorkerOk(s, s.workers[w]);
    }
  }

  lemma {:induction false} EntryReady(s: State, next: State, x: Item)
    requires Inv(s) && Enters(s, next, x)
    ensures WaitingReady(next)
  {
    OldRowsStay(s, next, x);
    forall y | y in Waiting(next)
      ensures y in next.born && y.RequestID in next.db && Ready(Row(next, y), next.cfg)
    {
      if y != x {
        assert y in Waiting(s);
      }
    }
  }

  lemma {:induction false} EntryRows(s: State, next: State, x: Item)
    requires Inv(s) && Enters(s, next, x)
    ensures RowsSound(next)
  {
    OldRowsStay(s, next, x);
    forall y | y in next.born
      ensures y.RequestID in next.db && RowSound(next, y)
    {
      assert y != x ==> RowSound(s, y);
    }
  }

  lemma {:induction false} EntryKeepsInv(s: State, next: State, x: Item)
    requires Inv(s) && Enters(s, next, x)
    ensures Inv(next)
  {
    EntryUnique(s, next, x);
    EntryRows(s, next, x);
    EntryReady(s, next, x);
    EntryWorkers(s, next, x);
  }

  lemma {:induction false} SubmitKeepsInv(s: State, x: Item)
    requires Inv(s) && Enabled(s, Submit(x))
    ensures Inv(Apply(s, Submit(x)))
  {
    EntryKeepsInv(s, Apply(s, Submit(x)), x);
  }

  /** Whatever a worker holds was submitted. */
  lemma {:induction false} HeldBy(s: State, x: Item)
    requires Inv(s) && 0 < Held(s.workers, x)
    ensures x in s.born
  {
    var w := SomeHolder(s.workers, x);
    assert WorkerOk(s, s.workers[w]);
  }

  lemma {:induction false} SomeHolder(workers: seq<Phase>, x: Item) returns (w: nat)
    requires 0 < Held(workers, x)
    ensures w < |workers| && Holds(workers[w], x)
  {
    var last := |workers| - 1;
    if Holds(workers[last], x) {
      w := last;
    } else {
      w := SomeHolder(workers[..last], x);
    }
  }

  lemma {:induction false} OfferKeepsInv(s: State, x: Item, fromTimer: bool, v: Q.Verdict)
    requires Inv(s) && Enabled(s, Offer(x, fromTimer, v))
    ensures Inv(Apply(s, Offer(x, fromTimer, v)))
  {
    OfferWaiting(s, x, fromTimer, v);
    MovesKeepInv(s, Apply(s, Offer(x, fromTimer, v)), if Q.Admitted(v) then D.Evicted(v) else multiset{x});
  }

  lemma {:induction false} LoseKeepsInv(s: State, q: D.Step, x: Item)
    requires Inv(s) && Enabled(s, Lose(q, x))
    ensures Inv(Apply(s, Lose(q, x)))
  {
    LeaveEffect(s.queue, q, x);
    Regroup(InQueue(s.queue), InQueue(D.Apply(s.queue, q)), s.timers, s.arriving, multiset{x});
    MovesKeepInv(s, Apply(s, Lose(q, x)), multiset{x});
  }

  lemma {:induction false} CancelTimerKeepsInv(s: State, x: Item)
    requires Inv(s) && Enabled(s, CancelTimer(x))
    ensures Inv(Apply(s, CancelTimer(x)))
  {
    var next := Apply(s, CancelTimer(x));
    D.TakenOut(s.timers, x);
    assert Waiting(s) == Waiting(next) + multiset{x};
    MovesKeepInv(s, next, multiset{x});
  }

  lemma {:induction false} InternalKeepsInv(s: State, q: D.Step)
    requires Inv(s) && Enabled(s, Internal(q))
    ensures Inv(Apply(s, Internal(q)))
  {
    InternalEffect(s.queue, q);
    Regroup(InQueue(s.queue), InQueue(D.Apply(s.queue, q)), s.timers, s.arriving, multiset{});
    MovesKeepInv(s, Apply(s, Internal(q)), multiset{});
  }

  /** An idle worker starts on an item, which was waiting, or just ends. */
  ghost predicate IdleMove(s: State, next: State, w: nat, p: Phase, taken: multiset<Item>) {
    && w < |s.workers| && !Busy(s.workers[w])
    && next.workers == s.workers[w := p] && next.db == s.db && next.born == s.born && next.cfg == s.cfg
    && next.finished == s.finished && Waiting(s) == Waiting(next) + taken
    && (if p.Loading? then taken == multiset{p.item} else !Busy(p) && taken == multiset{})
  }

  lemma {:induction false} IdleMoveUnique(s: State, next: State, w: nat, p: Phase, taken: multiset<Item>)
    requires Unique(s) && IdleMove(s, next, w, p, taken)
    ensures Unique(next)
  {
    forall y | y in s.born
      ensures Places(next, y) == 1
    {
      HeldUpdate(s.workers, w, p, y);
      assert Places(s, y) == 1;
    }
  }

  lemma {:induction false} IdleMoveWorkers(s: State, next: State, w: nat, p: Phase, taken: multiset<Item>)
    requires Inv(s) && IdleMove(s, next, w, p, taken)
    ensures WorkersOk(next)
  {
    if p.Loading? {
      assert p.item in Waiting(s);
    }
    forall v | 0 <= v < |next.workers|
      ensures WorkerOk(next, next.workers[v])
    {
      assert WorkerOk(s, s.workers[v]);
    }
  }

  lemma {:induction false} SameRowsSound(s: State, next: State)
    requires RowsSound(s) && next.db == s.db && next.born == s.born && next.cfg == s.cfg
    requires forall x :: x in s.finished ==> x in next.finished
    ensures RowsSound(next)
  {
    forall y | y in next.born
      ensures RowSound(next, y)
    {
      assert RowSound(s, y);
    }
  }

  lemma {:induction false} IdleMoveKeepsInv(s: State, next: State, w: nat, p: Phase, taken: multiset<Item>)
    requires Inv(s) && IdleMove(s, next, w, p, taken)
    ensures Inv(next)
  {
    IdleMoveUnique(s, next, w, p, taken);
    IdleMoveWorkers(s, next, w, p, taken);
    SameRowsSound(s, next);
  }

  lemma {:induction false} TakeKeepsInv(s: State, w: nat, q: D.Step, x: Item)
    requires Inv(s) && Enabled(s, Take(w, q, x))
    ensures Inv(Apply(s, Take(w, q, x)))
  {
    LeaveEffect(s.queue, q, x);
    Regroup(InQueue(s.queue), InQueue(D.Apply(s.queue, q)), s.timers, s.arriving, multiset{x});
    IdleMoveKeepsInv(s, Apply(s, Take(w, q, x)), w, Loading(x), multiset{x});
  }

  lemma {:induction false} EndWorkerKeepsInv(s: State, w: nat)
    requires Inv(s) && Enabled(s, EndWorker(w))
    ensures Inv(Apply(s, EndWorker(w)))
  {
    IdleMoveKeepsInv(s, Apply(s, EndWorker(w)), w, Ended, multiset{});
  }

  lemma {:induction false} LetGoKeepsInv(s: State, w: nat, row: Record, again: bool)
    requires Inv(s) && w < |s.workers| && Busy(s.workers[w])
    requires Sound(row, s.cfg) && (again ==> Ready(row, s.cfg))
    ensures Inv(LetGo(s, w, row, again))
  {
    var next := LetGo(s, w, row, again);
    assert Waiting(next) == Waiting(s) + (if again then multiset{s.workers[w].item} else multiset{});
    WorkerMoveKeepsInv(s, next, w, s.workers[w].item, row, if again then Back else Out);
  }

  lemma {:induction false} FailureKeepsInv(s: State, w: nat, attempts: nat, unit: real)
    requires Inv(s) && w < |s.workers| && Busy(s.workers[w]) && B.Jitter(unit)
    requires WorkerOk(s, s.workers[w]) && s.workers[w].item.RequestID in s.db
    requires var row := Row(s, s.workers[w].item);
      !Terminal(row.status) && row.attempts == attempts + 1 == |row.retries| + 1 && Sound(row, s.cfg)
    ensures Inv(HandleFailure(s, w, attempts, unit))
  {
    var row := Row(s, s.workers[w].item);
    if B.ShouldRetry(attempts + 1, s.cfg) {
      LetGoKeepsInv(s, w, row.(retries := row.retries + [Retry(attempts, unit)]), true);
    } else {
      LetGoKeepsInv(s, w, row.(status := Failed), false);
    }
  }

  /** The row of a busy worker's item, and what is known of it. */
  lemma {:induction false} RowOfWorker(s: State, w: nat)
    requires Inv(s) && w < |s.workers| && Busy(s.workers[w])
    ensures s.workers[w].item in s.born && s.workers[w].item.RequestID in s.db
    ensures var row := Row(s, s.workers[w].item);
      && PhaseOk(s.workers[w], row, s.cfg) && Sound(row, s.cfg) && !Terminal(row.status)
      && s.db[s.workers[w].item.RequestID := row] == s.db
  {
    assert WorkerOk(s, s.workers[w]);
    OnlyThere(s, w, s.workers[w].item);
  }

  lemma {:induction false} LoadKeepsInv(s: State, w: nat)
    requires Inv(s) && Enabled(s, Load(w))
    ensures Inv(Apply(s, Load(w)))
  {
    RowOfWorker(s, w);
    WorkerMoveKeepsInv(s, Apply(s, Load(w)), w, s.workers[w].item, Row(s, s.workers[w].item), Kept);
  }

  lemma {:induction false} GotKeyKeepsInv(s: State, w: nat)
    requires Inv(s) && Enabled(s, GotKey(w))
    ensures Inv(Apply(s, GotKey(w)))
  {
    RowOfWorker(s, w);
    var p := s.workers[w];
    var row := Row(s, p.item).(status := Processing, attempts := p.attempts + 1);
    WorkerMoveKeepsInv(s, Apply(s, GotKey(w)), w, p.item, row, Kept);
  }

  lemma {:induction false} CallKeepsInv(s: State, w: nat)
    requires Inv(s) && Enabled(s, Call(w))
    ensures Inv(Apply(s, Call(w)))
  {
    RowOfWorker(s, w);
    var row := Row(s, s.workers[w].item);
    WorkerMoveKeepsInv(s, Apply(s, Call(w)), w, s.workers[w].item, row.(calls := row.calls + 1), Kept);
  }

  lemma {:induction false} FinishKeepsInv(s: State, w: nat, answer: Answer, unit: real)
    requires Inv(s) && Enabled(s, Finish(w, answer, unit))
    ensures Inv(Apply(s, Finish(w, answer, unit)))
  {
    RowOfWorker(s, w);
    var row := Row(s, s.workers[w].item);
    if Succeeded(answer) {
      LetGoKeepsInv(s, w, row.(status := Success), false);
    } else if Retryable(answer) {
      FailureKeepsInv(s, w, s.workers[w].attempts, unit);
    } else {
      LetGoKeepsInv(s, w, row.(status := Failed), false);
    }
  }

  lemma {:induction false} SkipKeepsInv(s: State, w: nat)
    requires Inv(s) && Enabled(s, Skip(w))
    ensures Inv(Apply(s, Skip(w)))
  {
    RowOfWorker(s, w);
    var row := Row(s, s.workers[w].item);
    LetGoKeepsInv(s, w, row, false);
    assert Apply(s, Skip(w)) == LetGo(s, w, row, false);
  }

  lemma {:induction false} NoKeyKeepsInv(s: State, w: nat)
    requires Inv(s) && Enabled(s, NoKey(w))
    ensures Inv(Apply(s, NoKey(w)))
  {
    RowOfWorker(s, w);
    var row := Row(s, s.workers[w].item);
    LetGoKeepsInv(s, w, row, true);
    assert Apply(s, NoKey(w)) == LetGo(s, w, row, true);
  }

  lemma {:induction false} DecryptFailsKeepsInv(s: State, w: nat, unit: real)
    requires Inv(s) && Enabled(s, DecryptFails(w, unit))
    ensures Inv(Apply(s, DecryptFails(w, unit)))
  {
    RowOfWorker(s, w);
    FailureKeepsInv(s, w, s.workers[w].attempts, unit);
  }

  /** The steps inside processItem, after the row was asked for. */
  predicate Processes(step: Step) {
    step.Skip? || step.Load? || step.NoKey? || step.GotKey? || step.DecryptFails? || step.Call? || step.Finish?
  }

  /** The steps inside processItem that let go of the item. */
  predicate LetsGo(step: Step) {
    step.Skip? || step.NoKey? || step.DecryptFails? || step.Finish?
  }

  lemma {:induction false} LettingGoKeepsInv(s: State, step: Step)
    requires Inv(s) && Enabled(s, step) && LetsGo(step)
    ensures Inv(Apply(s, step))
  {
    match step {
      case Finish(w, answer, unit) => FinishKeepsInv(s, w, answer, unit);
      case Skip(w) => SkipKeepsInv(s, w);
      case NoKey(w) => NoKeyKeepsInv(s, w);
      case DecryptFails(w, unit) => DecryptFailsKeepsInv(s, w, unit);
    }
  }

  lemma {:induction false} ProcessingKeepsInv(s: State, step: Step)
    requires Inv(s) && Enabled(s, step) && Processes(step)
    ensures Inv(Apply(s, step))
  {
    if LetsGo(step) {
      LettingGoKeepsInv(s, step);
    } else if step.Load? {
      LoadKeepsInv(s, step.w);
    } else if step.GotKey? {
      GotKeyKeepsInv(s, step.w);
    } else {
      CallKeepsInv(s, step.w);
    }
  }

  /** The steps that a critical section or a channel of the queue takes part in. */
  predicate Queues(step: Step) {
    step.Offer? || step.Internal? || step.Lose? || step.Take?
  }

  lemma {:induction false} QueueingKeepsInv(s: State, step: Step)
    requires Inv(s) && Enabled(s, step) && Queues(step)
    ensures Inv(Apply(s, step))
  {
    match step {
      case Offer(x, fromTimer, v) => OfferKeepsInv(s, x, fromTimer, v);
      case Internal(q) => InternalKeepsInv(s, q);
      case Lose(q, x) => LoseKeepsInv(s, q, x);
      case Take(w, q, x) => TakeKeepsInv(s, w, q, x);
    }
  }

  lemma {:induction false} OutsideKeepsInv(s: State, step: Step)
    requires Inv(s) && Enabled(s, step) && !Queues(step) && !Processes(step)
    ensures Inv(Apply(s, step))
  {
    match step {
      case Submit(x) => SubmitKeepsInv(s, x);
      case CancelTimer(x) => CancelTimerKeepsInv(s, x);
      case Cancel => MovesKeepInv(s, Apply(s, step), multiset{});
      case EndWorker(w) => EndWorkerKeepsInv(s, w);
    }
  }

  /** Every step of every goroutine keeps the invariant. */
  lemma {:induction false} KeepsInv(s: State, step: Step)
    requires Inv(s) && Enabled(s, step)
    ensures Inv(Apply(s, step))
  {
    if Processes(step) {
      ProcessingKeepsInv(s, step);
    } else if Queues(step) {
      QueueingKeepsInv(s, step);
    } else {
      OutsideKeepsInv(s, step);
    }
  }

  lemma {:induction false} ReachableInv(states: seq<State>, steps: seq<Step>, t: nat)
    requires Run(states, steps) && t <= |steps|
    ensures Inv(states[t])
  {
    if t == 0 {
      assert Waiting(states[0]) == multiset{};
    } else {
      ReachableInv(states, steps, t - 1);
      KeepsInv(states[t - 1], steps[t - 1]);
    }
  }

  // ----- what every run guarantees -----

  /** One location: in every reachable state each submitted request is in exactly one place. */
  lemma {:induction false} OneLocation(states: seq<State>, steps: seq<Step>, t: nat, x: Item)
    requires Run(states, steps) && t <= |steps| && x in states[t].born
    ensures Places(states[t], x) == 1
  {
    ReachableInv(states, steps, t);
  }

  /** No two workers ever process the same request. */
  lemma {:induction false} NoSharedRequest(states: seq<State>, steps: seq<Step>, t: nat, v: nat, w: nat)
    requires Run(states, steps) && t <= |steps|
    requires v < |states[t].workers| && w < |states[t].workers|
    requires states[t].workers[v] != Idle && states[t].workers[v] != Ended
    requires states[t].workers[w] != Idle && states[t].workers[w] != Ended
    requires states[t].workers[v].item.RequestID == states[t].workers[w].item.RequestID
    ensures v == w
  {
    ReachableInv(states, steps, t);
    var s := states[t];
    RowOfWorker(s, v);
    RowOfWorker(s, w);
    assert s.workers[v].item == s.workers[w].item;
    OnlyThere(s, w, s.workers[w].item);
  }

  /**
   What Queue.Enqueue asks of its callers always holds: an item that is offered is not in the heap or
   the dispatcher's hand.
   */
  lemma {:induction false} OfferedItemIsNotQueued(states: seq<State>, steps: seq<Step>, t: nat, x: Item)
    requires Run(states, steps) && t <= |steps| && (x in states[t].timers || x in states[t].arriving)
    ensures x !in states[t].queue.heap && x !in D.Hand(states[t].queue)
  {
    ReachableInv(states, steps, t);
    var s := states[t];
    assert x in Waiting(s);
    assert Places(s, x) == 1;
  }

  /** The request whose row a step may write. */
  predicate Writes(s: State, step: Step, id: string) {
    match step
    case Submit(x) => x.RequestID == id
    case GotKey(w) => w < |s.workers| && Busy(s.workers[w]) && s.workers[w].item.RequestID == id
    case DecryptFails(w, _) => w < |s.workers| && Busy(s.workers[w]) && s.workers[w].item.RequestID == id
    case Call(w) => w < |s.workers| && Busy(s.workers[w]) && s.workers[w].item.RequestID == id
    case Finish(w, _, _) => w < |s.workers| && Busy(s.workers[w]) && s.workers[w].item.RequestID == id
    case _ => false
  }

  /** LetGo, and so handleFailure, writes one row only. */
  lemma {:induction false} FailureWritesOneRow(s: State, w: nat, attempts: nat, unit: real, id: string)
    requires w < |s.workers| && Busy(s.workers[w]) && s.workers[w].item.RequestID in s.db
    requires id in s.db && id != s.workers[w].item.RequestID
    ensures var next := HandleFailure(s, w, attempts, unit); id in next.db && next.db[id] == s.db[id]
  {
  }

  lemma {:induction false} UnwrittenRowStays(s: State, step: Step, id: string)
    requires Enabled(s, step) && id in s.db && !Writes(s, step, id)
    ensures id in Apply(s, step).db && Apply(s, step).db[id] == s.db[id]
  {
    if step.DecryptFails? || (step.Finish? && !Succeeded(step.answer) && Retryable(step.answer)) {
      FailureWritesOneRow(s, step.w, s.workers[step.w].attempts, step.unit, id);
    }
  }

  lemma {:induction false} NothingUnfinished(s: State, step: Step, x: Item)
    requires Enabled(s, step)
    ensures x in s.finished ==> x in Apply(s, step).finished
  {
  }

  lemma {:induction false} NothingUnborn(s: State, step: Step, x: Item)
    requires Enabled(s, step)
    ensures x in s.born ==> x in Apply(s, step).born
  {
  }

  /** Nobody writes the row of a finished request. */
  lemma {:induction false} FinishedUnwritten(s: State, step: Step, x: Item)
    requires Inv(s) && Enabled(s, step) && x in s.born && x in s.finished
    ensures !Writes(s, step, x.RequestID)
  {
    if Writes(s, step, x.RequestID) && !step.Submit? {
      RowOfWorker(s, step.w);
      assert s.workers[step.w].item == x;
      OnlyThere(s, step.w, x);
    }
  }

  lemma {:induction false} FinishedStays(s: State, step: Step, x: Item)
    requires Inv(s) && Enabled(s, step) && x in s.born && x in s.finished
    ensures x in Apply(s, step).finished && x in Apply(s, step).born
    ensures x.RequestID in s.db && x.RequestID in Apply(s, step).db && Row(Apply(s, step), x) == Row(s, x)
  {
    FinishedUnwritten(s, step, x);
    UnwrittenRowStays(s, step, x.RequestID);
    NothingUnfinished(s, step, x);
    NothingUnborn(s, step, x);
  }

  lemma {:induction false} FinishedStaysInRun(states: seq<State>, steps: seq<Step>, t: nat, x: Item)
    requires Run(states, steps) && t < |steps| && x in states[t].born && x in states[t].finished
    ensures x in states[t + 1].finished && x in states[t + 1].born
    ensures x.RequestID in states[t].db && x.RequestID in states[t + 1].db && Row(states[t + 1], x) == Row(states[t], x)
  {
    ReachableInv(states, steps, t);
    FinishedStays(states[t], steps[t], x);
  }

  lemma {:induction false} FinalMeansFinished(states: seq<State>, steps: seq<Step>, t: nat, x: Item)
    requires Run(states, steps) && t <= |steps| && x in states[t].born
    requires x.RequestID in states[t].db && Terminal(Row(states[t], x).status)
    ensures x in states[t].finished
  {
    ReachableInv(states, steps, t);
    assert RowSound(states[t], x);
  }

  /** A final status never changes: once success or failed, the row stays as it is for the rest of the run. */
  lemma {:induction false} FinalStatusStays(states: seq<State>, steps: seq<Step>, t: nat, u: nat, x: Item)
    requires Run(states, steps) && t <= u <= |steps| && x in states[t].born
    requires x.RequestID in states[t].db && (Row(states[t], x).status == Success || Row(states[t], x).status == Failed)
    ensures x in states[u].born && x in states[u].finished && x.RequestID in states[u].db
    ensures Row(states[u], x) == Row(states[t], x)
  {
    if t < u {
      FinalStatusStays(states, steps, t, u - 1, x);
      FinishedStaysInRun(states, steps, u - 1, x);
    } else {
      FinalMeansFinished(states, steps, t, x);
    }
  }

  /**
   The measure RetryMaxAttempts - attempts: a keyed pass lowers it, and is only taken while it is
   positive; a pass without a key leaves it.
   */
  lemma {:induction false} KeyedPassUsesAnAttempt(states: seq<State>, steps: seq<Step>, t: nat, w: nat)
    requires Run(states, steps) && t < |steps| && (steps[t] == GotKey(w) || steps[t] == NoKey(w))
    ensures var x := states[t].workers[w].item;
      && x.RequestID in states[t].db && x.RequestID in states[t + 1].db
      && Row(states[t], x).attempts < states[t].cfg.maxAttempts
      && Row(states[t + 1], x).attempts == Row(states[t], x).attempts + (if steps[t].GotKey? then 1 else 0)
  {
    ReachableInv(states, steps, t);
    RowOfWorker(states[t], w);
  }

  /**
   The answer decides: 2xx is success; a network error, 429 or 5xx goes to a timer exactly while the
   row, as stored, has attempts left; everything else fails for good. Nothing is left to the worker.
   */
  lemma {:induction false} AnswerDecides(states: seq<State>, steps: seq<Step>, t: nat, w: nat, answer: Answer,
          unit: real)
    requires Run(states, steps) && t < |steps| && steps[t] == Finish(w, answer, unit)
    ensures var x := states[t].workers[w].item;
      && x.RequestID in states[t].db && x.RequestID in states[t + 1].db
      && var retry := (answer == NetworkError || answer.status == 429 || 500 <= answer.status)
                      && Row(states[t], x).attempts < states[t].cfg.maxAttempts;
         var ok := answer != NetworkError && answer.status / 100 == 2;
         && states[t + 1].workers[w] == Idle
         && (x in states[t + 1].timers <==> retry)
         && (x in states[t + 1].finished <==> !retry)
         && (Row(states[t + 1], x).status == Success <==> ok)
         && (Row(states[t + 1], x).status == Failed <==> !ok && !retry)
  {
    ReachableInv(states, steps, t);
    RowOfWorker(states[t], w);
    OnlyThere(states[t], w, states[t].workers[w].item);
    assert states[t].workers[w].item !in states[t].timers;
  }

  /**
   A failed decryption is a failure: to a timer exactly while the row has attempts left, otherwise
   failed for good.
   */
  lemma {:induction false} DecryptionDecides(states: seq<State>, steps: seq<Step>, t: nat, w: nat, unit: real)
    requires Run(states, steps) && t < |steps| && steps[t] == DecryptFails(w, unit)
    ensures var x := states[t].workers[w].item;
      && x.RequestID in states[t].db && x.RequestID in states[t + 1].db
      && var retry := Row(states[t], x).attempts < states[t].cfg.maxAttempts;
         && states[t + 1].workers[w] == Idle
         && (x in states[t + 1].timers <==> retry)
         && (x in states[t + 1].finished <==> !retry)
         && (Row(states[t + 1], x).status == Failed <==> !retry)
         && Row(states[t + 1], x).calls == Row(states[t], x).calls
  {
    ReachableInv(states, steps, t);
    RowOfWorker(states[t], w);
    OnlyThere(states[t], w, states[t].workers[w].item);
    assert states[t].workers[w].item !in states[t].timers;
  }

  // ----- nothing gets stuck -----

  /** Enqueue always comes to a verdict once it has the lock. */
  lemma {:induction false} SomeVerdict(q: D.State, x: Item) returns (v: Q.Verdict)
    requires q.lock.Free?
    ensures D.Enabled(q, D.Enqueue(x, v))
  {
    if q.closed {
      v := Q.Closed;
    } else if |q.heap| < q.maxSize {
      v := Q.Accepted;
    } else if !q.preempt || q.heap == multiset{} {
      v := Q.Full;
    } else {
      var worst := SomeWorst(q.heap);
      v := if x.Priority < worst.Priority then Q.Evicting(worst) else Q.Full;
    }
  }

  lemma {:induction false} SomeWorst(q: multiset<Item>) returns (w: Item)
    requires q != multiset{}
    ensures Q.IsWorst(w, q)
    decreases |q|
  {
    w :| w in q;
    ghost var first, rest := w, q - multiset{w};
    if rest != multiset{} {
      D.OneLess(q, w);
      var y := SomeWorst(rest);
      w := if Before(w, y) then y else w;
      forall z | z in q
        ensures AtMost(z, w)
      {
        assert z == first || z in rest;
      }
    } else {
      D.TakenOut(q, first);
    }
  }

  /** Whatever the world answers, the worker goes on: the row can be loaded, and every outcome has its step. */
  ghost predicate GoesOnWith(s: State, w: nat, answer: Answer, unit: real)
    requires w < |s.workers|
  {
    match s.workers[w]
    case Loading(_) => Enabled(s, Load(w)) && Enabled(s, Skip(w))
    case NeedsKey(_, _) => Enabled(s, NoKey(w)) && Enabled(s, GotKey(w))
    case Keyed(_, _) => Enabled(s, DecryptFails(w, unit)) && Enabled(s, Call(w))
    case InFlight(_, _) => Enabled(s, Finish(w, answer, unit))
    case _ => true
  }

  lemma {:induction false} BeforeKeyGoesOn(s: State, w: nat)
    requires w < |s.workers| && Busy(s.workers[w]) && s.workers[w].item.RequestID in s.db
    requires !Terminal(Row(s, s.workers[w].item).status)
    ensures s.workers[w].Loading? ==> Enabled(s, Load(w)) && Enabled(s, Skip(w))
    ensures s.workers[w].NeedsKey? ==> Enabled(s, NoKey(w)) && Enabled(s, GotKey(w))
  {
  }

  lemma {:induction false} WithKeyGoesOn(s: State, w: nat, answer: Answer, unit: real)
    requires w < |s.workers| && Busy(s.workers[w]) && s.workers[w].item.RequestID in s.db && B.Jitter(unit)
    ensures s.workers[w].Keyed? ==> Enabled(s, DecryptFails(w, unit)) && Enabled(s, Call(w))
    ensures s.workers[w].InFlight? ==> Enabled(s, Finish(w, answer, unit))
  {
  }

  lemma {:induction false} BusyGoesOn(s: State, w: nat, answer: Answer, unit: real)
    requires w < |s.workers| && Busy(s.workers[w]) && B.Jitter(unit)
    requires s.workers[w].item.RequestID in s.db && !Terminal(Row(s, s.workers[w].item).status)
    ensures GoesOnWith(s, w, answer, unit)
  {
    BeforeKeyGoesOn(s, w);
    WithKeyGoesOn(s, w, answer, unit);
  }

  /** In every reachable state no worker is stuck, whatever the world answers. */
  lemma {:induction false} WorkerGoesOn(states: seq<State>, steps: seq<Step>, t: nat, w: nat, answer: Answer,
          unit: real)
    requires Run(states, steps) && t <= |steps| && w < |states[t].workers| && B.Jitter(unit)
    ensures GoesOnWith(states[t], w, answer, unit)
  {
    if Busy(states[t].workers[w]) {
      ReachableInv(states, steps, t);
      RowOfWorker(states[t], w);
      BusyGoesOn(states[t], w, answer, unit);
    }
  }

  /** The step that the queue takes part in, if any. */
  function QueueSteps(step: Step): seq<D.Step> {
    match step
    case Offer(x, _, v) => [D.Enqueue(x, v)]
    case Internal(q) => [q]
    case Lose(q, _) => [q]
    case Take(_, q, _) => [q]
    case _ => []
  }

  /**
   Every step that the queue can take is one that the system can take, as long as a worker waits for
   what is handed over.
   */
  lemma {:induction false} QueueStepLifts(s: State, q: D.Step, w: nat) returns (step: Step)
    requires D.Enabled(s.queue, q) && !q.Enqueue?
    requires q.Deliver? || q.DrainSend? ==> w < |s.workers| && s.workers[w].Idle?
    ensures Enabled(s, step) && QueueSteps(step) == [q]
  {
    match q {
      case Deliver => step := Take(w, q, s.queue.pc.item);
      case DrainSend(x) => step := Take(w, q, x);
      case AbortSend => step := Lose(q, s.queue.pc.item);
      case DrainDrop(x) => step := Lose(q, x);
      case _ => step := Internal(q);
    }
  }

  /** An item that a handler or a timer offers gets its verdict as soon as the queue's lock is free. */
  lemma {:induction false} OfferGoesOn(s: State, x: Item, fromTimer: bool) returns (step: Step)
    requires s.queue.lock.Free? && x in (if fromTimer then s.timers else s.arriving)
    ensures step.Offer? && step.x == x && Enabled(s, step)
  {
    var v := SomeVerdict(s.queue, x);
    step := Offer(x, fromTimer, v);
  }

  /** The state in which the root context is cancelled. */
  ghost function CancelledNow(s: State): State {
    if s.cancelled then s else Apply(s, Cancel)
  }

  /** A cancellation is always possible, and then every timer can be stopped and every idle worker can end. */
  lemma {:induction false} CancelFreesAll(s: State, x: Item, w: nat)
    ensures !s.cancelled ==> Enabled(s, Cancel)
    ensures x in s.timers ==> Enabled(CancelledNow(s), CancelTimer(x))
    ensures w < |s.workers| && s.workers[w].Idle? ==> Enabled(CancelledNow(s), EndWorker(w))
  {
  }

  // ----- what the columns of a row count -----

  /** The worker that a step is about to do something to a row for, if it holds x. */
  predicate ByHolder(s: State, w: nat, x: Item) {
    w < |s.workers| && Holds(s.workers[w], x)
  }

  predicate CallsFor(s: State, step: Step, x: Item) {
    step.Call? && ByHolder(s, step.w, x)
  }

  predicate KeyedFor(s: State, step: Step, x: Item) {
    step.GotKey? && ByHolder(s, step.w, x)
  }

  lemma {:induction false} HolderWrites(s: State, w: nat, x: Item)
    requires Inv(s) && w < |s.workers| && Busy(s.workers[w]) && x in s.born
    ensures s.workers[w].item.RequestID == x.RequestID <==> s.workers[w].item == x
  {
    RowOfWorker(s, w);
  }

  /** How a row goes on: so many more calls and attempts, and pending exactly before the first attempt. */
  predicate GoesOn(before: Record, after: Record, calls: nat, attempts: nat) {
    && after.calls == before.calls + calls && after.attempts == before.attempts + attempts
    && ((before.status == Pending <==> before.attempts == 0) ==> (after.status == Pending <==> after.attempts == 0))
  }

  /** Failures keep the columns. */
  lemma {:induction false} FailureCounts(s: State, w: nat, attempts: nat, unit: real)
    requires w < |s.workers| && Busy(s.workers[w]) && s.workers[w].item.RequestID in s.db
    requires 0 < Row(s, s.workers[w].item).attempts
    ensures s.workers[w].item.RequestID in HandleFailure(s, w, attempts, unit).db
    ensures GoesOn(Row(s, s.workers[w].item), Row(HandleFailure(s, w, attempts, unit), s.workers[w].item), 0, 0)
  {
  }

  lemma {:induction false} FinishCounts(s: State, w: nat, answer: Answer, unit: real)
    requires Inv(s) && Enabled(s, Finish(w, answer, unit))
    ensures var next, x := Apply(s, Finish(w, answer, unit)), s.workers[w].item;
      x.RequestID in next.db && GoesOn(Row(s, x), Row(next, x), 0, 0)
  {
    RowOfWorker(s, w);
    FailureCounts(s, w, s.workers[w].attempts, unit);
  }

  lemma {:induction false} DecryptionCounts(s: State, w: nat, unit: real)
    requires Inv(s) && Enabled(s, DecryptFails(w, unit))
    ensures var next, x := Apply(s, DecryptFails(w, unit)), s.workers[w].item;
      x.RequestID in next.db && GoesOn(Row(s, x), Row(next, x), 0, 0)
  {
    RowOfWorker(s, w);
    FailureCounts(s, w, s.workers[w].attempts, unit);
  }

  lemma {:induction false} GotKeyCounts(s: State, w: nat)
    requires Inv(s) && Enabled(s, GotKey(w))
    ensures var next, x := Apply(s, GotKey(w)), s.workers[w].item;
      x.RequestID in next.db && GoesOn(Row(s, x), Row(next, x), 0, 1)
  {
    RowOfWorker(s, w);
  }

  lemma {:induction false} CallCounts(s: State, w: nat)
    requires Inv(s) && Enabled(s, Call(w))
    ensures var next, x := Apply(s, Call(w)), s.workers[w].item;
      x.RequestID in next.db && GoesOn(Row(s, x), Row(next, x), 1, 0)
  {
    RowOfWorker(s, w);
  }

  lemma {:induction false} WritingStepCounts(s: State, step: Step, x: Item)
    requires Inv(s) && Enabled(s, step) && !step.Submit? && Writes(s, step, x.RequestID) && s.workers[step.w].item == x
    ensures x.RequestID in s.db && x.RequestID in Apply(s, step).db
    ensures GoesOn(Row(s, x), Row(Apply(s, step), x), if step.Call? then 1 else 0, if step.GotKey? then 1 else 0)
  {
    RowOfWorker(s, step.w);
    match step {
      case GotKey(w) => GotKeyCounts(s, w);
      case DecryptFails(w, unit) => DecryptionCounts(s, w, unit);
      case Call(w) => CallCounts(s, w);
      case Finish(w, answer, unit) => FinishCounts(s, w, answer, unit);
    }
  }

  /** A step makes a call for x, uses an attempt of x, or leaves both columns of x alone. */
  lemma {:induction false} StepCounts(s: State, step: Step, x: Item)
    requires Inv(s) && Enabled(s, step) && x in s.born
    ensures x.RequestID in s.db && x.RequestID in Apply(s, step).db
    ensures var calls, attempts := if CallsFor(s, step, x) then 1 else 0, if KeyedFor(s, step, x) then 1 else 0;
      GoesOn(Row(s, x), Row(Apply(s, step), x), calls, attempts)
  {
    if Writes(s, step, x.RequestID) && !step.Submit? {
      HolderWrites(s, step.w, x);
      WritingStepCounts(s, step, x);
    } else {
      UnwrittenRowStays(s, step, x.RequestID);
    }
  }

  /** Nobody has worked on a request that was not submitted. */
  lemma {:induction false} UnbornUntouched(s: State, step: Step, x: Item)
    requires Inv(s) && Enabled(s, step) && x !in s.born
    ensures !CallsFor(s, step, x) && !KeyedFor(s, step, x)
  {
    if (step.Call? || step.GotKey?) && ByHolder(s, step.w, x) {
      RowOfWorker(s, step.w);
    }
  }

  lemma {:induction false} OnlySubmitBears(s: State, step: Step, x: Item)
    requires Enabled(s, step) && x !in s.born && x in Apply(s, step).born
    ensures step == Submit(x)
  {
  }

  /** A request enters with a fresh row. */
  lemma {:induction false} BirthRow(s: State, step: Step, x: Item)
    requires Enabled(s, step) && x !in s.born && x in Apply(s, step).born
    ensures x.RequestID in Apply(s, step).db && Row(Apply(s, step), x) == Record(Pending, 0, 0, [])
  {
    OnlySubmitBears(s, step, x);
  }

  /** How many HTTP calls the workers have made for x in the first t steps. */
  function CallsMade(states: seq<State>, steps: seq<Step>, t: nat, x: Item): nat
    requires t <= |steps| < |states|
  {
    if t == 0 then 0
    else CallsMade(states, steps, t - 1, x) + (if CallsFor(states[t - 1], steps[t - 1], x) then 1 else 0)
  }

  /** How many passes over x had a key in the first t steps. */
  function KeyedPasses(states: seq<State>, steps: seq<Step>, t: nat, x: Item): nat
    requires t <= |steps| < |states|
  {
    if t == 0 then 0
    else KeyedPasses(states, steps, t - 1, x) + (if KeyedFor(states[t - 1], steps[t - 1], x) then 1 else 0)
  }

  lemma {:induction false} UnbornUncounted(states: seq<State>, steps: seq<Step>, t: nat, x: Item)
    requires Run(states, steps) && t <= |steps| && x !in states[t].born
    ensures CallsMade(states, steps, t, x) == 0 && KeyedPasses(states, steps, t, x) == 0
  {
    if t != 0 {
      NothingUnborn(states[t - 1], steps[t - 1], x);
      ReachableInv(states, steps, t - 1);
      UnbornUntouched(states[t - 1], steps[t - 1], x);
      UnbornUncounted(states, steps, t - 1, x);
    }
  }

  /** The columns of x, as they are after t steps, count what happened in them. */
  ghost predicate Counted(states: seq<State>, steps: seq<Step>, t: nat, x: Item)
    requires t <= |steps| < |states| && x.RequestID in states[t].db
  {
    var row := Row(states[t], x);
    && row.calls == CallsMade(states, steps, t, x) && row.attempts == KeyedPasses(states, steps, t, x)
    && (row.status == Pending <==> row.attempts == 0)
  }

  lemma {:induction false} CountedAtBirth(states: seq<State>, steps: seq<Step>, t: nat, x: Item)
    requires Run(states, steps) && t < |steps| && x !in states[t].born && x in states[t + 1].born
    ensures x.RequestID in states[t + 1].db && Counted(states, steps, t + 1, x)
  {
    ReachableInv(states, steps, t);
    UnbornUncounted(states, steps, t, x);
    UnbornUntouched(states[t], steps[t], x);
    BirthRow(states[t], steps[t], x);
  }

  lemma {:induction false} CountedOn(states: seq<State>, steps: seq<Step>, t: nat, x: Item)
    requires Run(states, steps) && t < |steps| && x in states[t].born
    requires x.RequestID in states[t].db && Counted(states, steps, t, x)
    ensures x.RequestID in states[t + 1].db && Counted(states, steps, t + 1, x)
  {
    ReachableInv(states, steps, t);
    StepCounts(states[t], steps[t], x);
  }

  /**
   The columns count what happened: calls are the HTTP calls that workers made for the request over the whole
   run, attempts its passes with a key, and it is pending exactly before the first of these.
   */
  lemma {:induction false} ColumnsCount(states: seq<State>, steps: seq<Step>, t: nat, x: Item)
    requires Run(states, steps) && t <= |steps| && x in states[t].born
    ensures x.RequestID in states[t].db
    ensures Row(states[t], x).calls == CallsMade(states, steps, t, x)
    ensures Row(states[t], x).attempts == KeyedPasses(states, steps, t, x)
    ensures Row(states[t], x).status == Pending <==> Row(states[t], x).attempts == 0
  {
    if t != 0 {
      if x in states[t - 1].born {
        ColumnsCount(states, steps, t - 1, x);
        CountedOn(states, steps, t - 1, x);
      } else {
        CountedAtBirth(states, steps, t - 1, x);
      }
    }
  }

  /** Bounded attempts: over its whole life at most RetryMaxAttempts HTTP calls are made for a request. */
  lemma {:induction false} AtMostMaxCalls(states: seq<State>, steps: seq<Step>, t: nat, x: Item)
    requires Run(states, steps) && t <= |steps| && x in states[t].born
    ensures x.RequestID in states[t].db
    ensures Row(states[t], x).calls <= Row(states[t], x).attempts <= states[t].cfg.maxAttempts
    ensures CallsMade(states, steps, t, x) <= KeyedPasses(states, steps, t, x) <= states[t].cfg.maxAttempts
  {
    ReachableInv(states, steps, t);
    assert RowSound(states[t], x);
    ColumnsCount(states, steps, t, x);
  }

  lemma {:induction false} FinishLeavesEnded(s: State, step: Step, w: nat)
    requires Enabled(s, step) && w < |s.workers| && s.workers[w].Ended? && (step.Finish? || step.DecryptFails?)
    ensures |Apply(s, step).workers| == |s.workers| && Apply(s, step).workers[w].Ended?
  {
  }

  lemma {:induction false} WorkingLeavesEnded(s: State, step: Step, w: nat)
    requires Enabled(s, step) && w < |s.workers| && s.workers[w].Ended?
    requires Processes(step) && !step.Finish? && !step.DecryptFails?
    ensures |Apply(s, step).workers| == |s.workers| && Apply(s, step).workers[w].Ended?
  {
  }

  lemma {:induction false} RestLeavesEnded(s: State, step: Step, w: nat)
    requires Enabled(s, step) && w < |s.workers| && s.workers[w].Ended? && !Processes(step)
    ensures |Apply(s, step).workers| == |s.workers| && Apply(s, step).workers[w].Ended?
  {
  }

  lemma {:induction false} EndedStep(s: State, step: Step, w: nat)
    requires Enabled(s, step) && w < |s.workers| && s.workers[w].Ended?
    ensures |Apply(s, step).workers| == |s.workers| && Apply(s, step).workers[w].Ended?
  {
    if step.Finish? || step.DecryptFails? {
      FinishLeavesEnded(s, step, w);
    } else if Processes(step) {
      WorkingLeavesEnded(s, step, w);
    } else {
      RestLeavesEnded(s, step, w);
    }
  }

  /** A worker that has ended takes nothing any more. */
  lemma {:induction false} EndedStays(states: seq<State>, steps: seq<Step>, t: nat, u: nat, w: nat)
    requires Run(states, steps) && t < u <= |steps| && steps[t] == EndWorker(w)
    ensures w < |states[u].workers| && states[u].workers[w] == Ended
  {
    if t + 1 < u {
      EndedStays(states, steps, t, u - 1, w);
      EndedStep(states[u - 1], steps[u - 1], w);
    }
  }

  function Units(retries: seq<Retry>): (units: seq<real>)
    ensures |units| == |retries|
  {
    seq(|retries|, k requires 0 <= k < |retries| => retries[k].unit)
  }

  /** What the failure retries of a row have waited in total, each by its own attempt number. */
  function Waited(retries: seq<Retry>, cfg: B.Config): int {
    if retries == [] then 0
    else
      var last := retries[|retries| - 1];
      Waited(retries[..|retries| - 1], cfg) + B.CalculateBackoff(last.attempt, cfg, last.unit)
  }

  lemma {:induction false} WaitedIsTotal(retries: seq<Retry>, cfg: B.Config)
    requires forall k :: 0 <= k < |retries| ==> retries[k].attempt == k
    ensures Waited(retries, cfg) == B.TotalBackoff(Units(retries), cfg)
  {
    if retries != [] {
      var last := |retries| - 1;
      WaitedIsTotal(retries[..last], cfg);
      assert Units(retries)[..last] == Units(retries[..last]);
    }
  }

  /**
   Total backoff: in every reachable state the failure retries of a request number fewer than
   RetryMaxAttempts, and their delays add up to less than both bounds for that number.
   */
  lemma {:induction false} BackoffOfARequest(states: seq<State>, steps: seq<Step>, t: nat, x: Item)
    requires Run(states, steps) && t <= |steps| && x in states[t].born && B.Positive(states[t].cfg)
    ensures x.RequestID in states[t].db
    ensures var retries := Row(states[t], x).retries;
      |retries| < states[t].cfg.maxAttempts && B.WithinBounds(Waited(retries, states[t].cfg), |retries|, states[t].cfg)
  {
    ReachableInv(states, steps, t);
    var retries := Row(states[t], x).retries;
    assert Sound(Row(states[t], x), states[t].cfg);
    WaitedIsTotal(retries, states[t].cfg);
    B.TotalIsBounded(Units(retries), states[t].cfg);
  }

  lemma {:induction false} QueueMoves(s: State, step: Step)
    requires Enabled(s, step)
    ensures QueueSteps(step) == [] ==> Apply(s, step).queue == s.queue
    ensures QueueSteps(step) != [] ==>
      D.Enabled(s.queue, QueueSteps(step)[0]) && Apply(s, step).queue == D.Apply(s.queue, QueueSteps(step)[0])
  {
  }

  lemma {:induction false} StepKeepsQueueInv(s: State, step: Step)
    requires Enabled(s, step) && D.Inv(s.queue)
    ensures D.Inv(Apply(s, step).queue)
  {
    QueueMoves(s, step);
    if QueueSteps(step) != [] {
      D.KeepsInv(s.queue, QueueSteps(step)[0]);
    }
  }

  lemma {:induction false} QueueInvNext(states: seq<State>, steps: seq<Step>, t: nat)
    requires Run(states, steps) && t < |steps| && D.Inv(states[t].queue)
    ensures D.Inv(states[t + 1].queue)
  {
    StepKeepsQueueInv(states[t], steps[t]);
  }

  /** The queue inside a run of requests is a run of the queue, so it keeps all the queue's invariants. */
  lemma {:induction false} QueueInv(states: seq<State>, steps: seq<Step>, t: nat)
    requires Run(states, steps) && t <= |steps|
    ensures D.Inv(states[t].queue)
  {
    if t == 0 {
      D.InitInv(states[0].queue);
    } else {
      QueueInv(states, steps, t - 1);
      QueueInvNext(states, steps, t - 1);
    }
  }
}
