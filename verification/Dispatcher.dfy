/**
 The queue's goroutines as an interleaving (internal/queue/queue.go): any number of callers of
 Enqueue, one Close, and the dispatch loop. A step is one critical section or one channel operation.
 */
module Dispatcher {
  import opened PriorityQueues
  import opened Queues

  /** Where the dispatch loop is. */
  datatype Pc =
    | Parked                 // outer select, on notify and done
    | Popping                // about to lock and pop
    | Sending(item: Item)    // holds an item, blocked on a worker or done
    | WaitingToDrain         // saw done, about to lock
    | Draining               // inside drainRemaining
    | Closing                // about to close the dequeue channel
    | Stopped                // the dequeue channel is closed

  datatype Lock = Free | ByEnqueue | ByDrain

  /** `entered` notes, for the last admission of an item, how many deliveries there had been. */
  datatype State = State(
    heap: multiset<Item>,
    maxSize: int,
    preempt: bool,
    closed: bool,
    done: bool,
    notify: bool,
    lock: Lock,
    pc: Pc,
    delivered: seq<Item>,
    evicted: multiset<Item>,
    dropped: multiset<Item>,
    accepted: multiset<Item>,
    entered: map<Item, nat>)

  datatype Step =
    | Enqueue(x: Item, v: Verdict)   // up to the push; a rejection also unlocks
    | Notify                         // the non-blocking send, and unlock
    | MarkClosed
    | CloseDone
    | Wake                           // receive from notify
    | WakeOnDone
    | PopNone
    | Pop(x: Item)
    | Deliver                        // a worker receives the held item
    | AbortSend                      // done wins the inner select: the held item is lost
    | LockDrain
    | DrainSend(x: Item)
    | DrainDrop(x: Item)
    | UnlockDrain
    | CloseDequeue

  function After(q: multiset<Item>, x: Item, v: Verdict): multiset<Item> {
    match v
    case Accepted => q + multiset{x}
    case Evicting(w) => q - multiset{w} + multiset{x}
    case _ => q
  }

  /** heap.Pop may return x. */
  ghost predicate Least(x: Item, q: multiset<Item>) {
    x in q && forall y :: y in q ==> AtMost(x, y)
  }

  ghost predicate Enabled(s: State, step: Step) {
    match step
    case Enqueue(x, v) => s.lock.Free? && Decides(s.heap, x, s.maxSize, s.preempt, s.closed, v, After(s.heap, x, v))
    case Notify => s.lock.ByEnqueue?
    case MarkClosed => s.lock.Free? && !s.closed
    case CloseDone => s.closed && !s.done
    case Wake => s.pc.Parked? && s.notify
    case WakeOnDone => s.pc.Parked? && s.done
    case PopNone => s.pc.Popping? && s.lock.Free? && s.heap == multiset{}
    case Pop(x) => s.pc.Popping? && s.lock.Free? && Least(x, s.heap)
    case Deliver => s.pc.Sending?
    case AbortSend => s.pc.Sending? && s.done
    case LockDrain => s.pc.WaitingToDrain? && s.lock.Free?
    case DrainSend(x) => s.pc.Draining? && Least(x, s.heap)
    case DrainDrop(x) => s.pc.Draining? && Least(x, s.heap)
    case UnlockDrain => s.pc.Draining? && s.heap == multiset{}
    case CloseDequeue => s.pc.Closing?
  }

  function Evicted(v: Verdict): multiset<Item> {
    if v.Evicting? then multiset{v.worst} else multiset{}
  }

  ghost function Apply(s: State, step: Step): State
    requires Enabled(s, step)
  {
    match step
    case Enqueue(x, v) =>
      if Admitted(v) then
        s.(heap := After(s.heap, x, v), lock := ByEnqueue, evicted := s.evicted + Evicted(v),
           accepted := s.accepted + multiset{x}, entered := s.entered[x := |s.delivered|])
      else s
    case Notify => s.(notify := true, lock := Free)
    case MarkClosed => s.(closed := true)
    case CloseDone => s.(done := true)
    case Wake => s.(notify := false, pc := Popping)
    case WakeOnDone => s.(pc := WaitingToDrain)
    case PopNone => s.(pc := Parked)
    case Pop(x) => s.(heap := s.heap - multiset{x}, pc := Sending(x))
    case Deliver => s.(delivered := s.delivered + [s.pc.item], pc := Popping)
    case AbortSend => s.(dropped := s.dropped + multiset{s.pc.item}, pc := WaitingToDrain)
    case LockDrain => s.(lock := ByDrain, pc := Draining)
    case DrainSend(x) => s.(heap := s.heap - multiset{x}, delivered := s.delivered + [x])
    case DrainDrop(x) => s.(heap := s.heap - multiset{x}, dropped := s.dropped + multiset{x})
    case UnlockDrain => s.(lock := Free, pc := Closing)
    case CloseDequeue => s.(pc := Stopped)
  }

  ghost predicate Init(s: State) {
    && s.heap == s.evicted == s.dropped == s.accepted == multiset{}
    && !s.closed && !s.done && !s.notify
    && s.lock.Free? && s.pc.Parked? && s.delivered == [] && s.entered == map[]
  }

  ghost predicate Run(states: seq<State>, steps: seq<Step>) {
    && |states| == |steps| + 1
    && Init(states[0])
    && forall t {:trigger steps[t]} :: 0 <= t < |steps| ==>
      Enabled(states[t], steps[t]) && states[t + 1] == Apply(states[t], steps[t])
  }

  /** The item the dispatcher has popped and not yet handed over. */
  function Hand(s: State): (held: multiset<Item>)
    ensures |held| == if s.pc.Sending? then 1 else 0
  {
    if s.pc.Sending? then multiset{s.pc.item} else multiset{}
  }

  // ----- invariants -----

  /** Wakeups: a non-empty heap never meets a parked dispatcher and an empty notify slot. */
  ghost predicate Wakes(s: State) {
    s.heap != multiset{} && s.pc.Parked? ==> s.notify || s.lock.ByEnqueue?
  }

  ghost predicate Bounded(s: State) {
    |s.heap| <= if s.maxSize < 0 then 0 else s.maxSize
  }

  predicate AfterDone(pc: Pc) {
    pc.WaitingToDrain? || pc.Draining? || pc.Closing? || pc.Stopped?
  }

  /** Shutdown is staged: closed under the lock, then done, then the drain, then the close. */
  ghost predicate Staged(s: State) {
    && (s.done ==> s.closed)
    && (s.lock.ByEnqueue? ==> !s.closed)
    && (AfterDone(s.pc) ==> s.done)
    && (s.lock.ByDrain? <==> s.pc.Draining?)
    && (s.pc.Closing? || s.pc.Stopped? ==> s.heap == multiset{})
  }

  /** Every accepted item is in exactly one place. */
  ghost predicate Accounted(s: State) {
    s.accepted == s.heap + Hand(s) + multiset(s.delivered) + s.evicted + s.dropped
  }

  /** How many of the deliveries are less urgent than x. */
  function Inversions(x: Item, ds: seq<Item>): nat {
    if ds == [] then 0 else Inversions(x, ds[..|ds| - 1]) + (if Before(x, ds[|ds| - 1]) then 1 else 0)
  }

  /** The held item will be one more inversion for x. */
  function HeldAgainst(s: State, x: Item): nat {
    if s.pc.Sending? && Before(x, s.pc.item) then 1 else 0
  }

  /** The deliveries since x last entered. */
  function Since(s: State, x: Item): seq<Item>
    requires x in s.entered && s.entered[x] <= |s.delivered|
  {
    s.delivered[s.entered[x]..]
  }

  ghost predicate Known(s: State, x: Item) {
    x in s.entered && s.entered[x] <= |s.delivered|
  }

  /** Deliveries that x has been passed over for, counting the held item: at most one. */
  ghost predicate PassedOnce(s: State, x: Item) {
    Known(s, x) && Inversions(x, Since(s, x)) + HeldAgainst(s, x) <= 1
  }

  ghost predicate Fair(s: State) {
    && (forall x :: x in s.entered ==> Known(s, x))
    && (forall x :: x in s.heap ==> PassedOnce(s, x))
    && (s.pc.Sending? ==> PassedOnce(s, s.pc.item))
  }

  ghost predicate Inv(s: State) {
    Wakes(s) && Bounded(s) && Staged(s) && Accounted(s) && Fair(s)
  }

  lemma {:induction false} KeepsWakes(s: State, step: Step)
    requires Wakes(s) && Enabled(s, step)
    ensures Wakes(Apply(s, step))
  {
  }

  lemma {:induction false} OneLess(q: multiset<Item>, x: Item)
    requires x in q
    ensures |q - multiset{x}| == |q| - 1
  {
  }

  lemma {:induction false} AdmissionKeepsBounded(s: State, x: Item, v: Verdict)
    requires Bounded(s) && Enabled(s, Enqueue(x, v))
    ensures Bounded(Apply(s, Enqueue(x, v)))
  {
    match v {
      case Accepted =>
      case Evicting(w) => OneLess(s.heap, w);
      case Full =>
      case Closed =>
    }
  }

  lemma {:induction false} KeepsBounded(s: State, step: Step)
    requires Bounded(s) && Enabled(s, step)
    ensures Bounded(Apply(s, step))
  {
    match step {
      case Enqueue(x, v) => AdmissionKeepsBounded(s, x, v);
      case Pop(x) => OneLess(s.heap, x);
      case DrainSend(x) => OneLess(s.heap, x);
      case DrainDrop(x) => OneLess(s.heap, x);
      case Notify =>
      case MarkClosed =>
      case CloseDone =>
      case Wake =>
      case WakeOnDone =>
      case PopNone =>
      case Deliver =>
      case AbortSend =>
      case LockDrain =>
      case UnlockDrain =>
      case CloseDequeue =>
    }
  }

  lemma {:induction false} KeepsStaged(s: State, step: Step)
    requires Staged(s) && Enabled(s, step)
    ensures Staged(Apply(s, step))
  {
    match step {
      case Enqueue(x, v) =>
      case Notify =>
      case MarkClosed =>
      case CloseDone =>
      case Wake =>
      case WakeOnDone =>
      case PopNone =>
      case Pop(x) =>
      case Deliver =>
      case AbortSend =>
      case LockDrain =>
      case DrainSend(x) =>
      case DrainDrop(x) =>
      case UnlockDrain =>
      case CloseDequeue =>
    }
  }

  lemma {:induction false} TakenOut(q: multiset<Item>, x: Item)
    requires x in q
    ensures q == (q - multiset{x}) + multiset{x}
  {
  }

  lemma {:induction false} DeliveredOne(ds: seq<Item>, x: Item)
    ensures multiset(ds + [x]) == multiset(ds) + multiset{x}
  {
  }

  lemma {:induction false} AdmissionAccounted(s: State, x: Item, v: Verdict, next: State)
    requires Accounted(s) && Admitted(v) && Enabled(s, Enqueue(x, v)) && next == Apply(s, Enqueue(x, v))
    ensures Accounted(next)
  {
    if v.Evicting? {
      TakenOut(s.heap, v.worst);
    }
  }

  /** Moving x between two of five places keeps their sum. */
  lemma Moved(a: multiset<Item>, b: multiset<Item>, rest: multiset<Item>, x: Item)
    requires x in a
    ensures a + b + rest == (a - multiset{x}) + (b + multiset{x}) + rest
  {
  }

  lemma {:induction false} PopAccounted(s: State, x: Item)
    requires Accounted(s) && Enabled(s, Pop(x))
    ensures Accounted(Apply(s, Pop(x)))
  {
    Moved(s.heap, Hand(s), multiset(s.delivered) + s.evicted + s.dropped, x);
  }

  lemma {:induction false} DeliverAccounted(s: State)
    requires Accounted(s) && Enabled(s, Deliver)
    ensures Accounted(Apply(s, Deliver))
  {
    DeliveredOne(s.delivered, s.pc.item);
    Moved(Hand(s), multiset(s.delivered), s.heap + s.evicted + s.dropped, s.pc.item);
  }

  lemma {:induction false} AbortAccounted(s: State)
    requires Accounted(s) && Enabled(s, AbortSend)
    ensures Accounted(Apply(s, AbortSend))
  {
    Moved(Hand(s), s.dropped, s.heap + multiset(s.delivered) + s.evicted, s.pc.item);
  }

  lemma {:induction false} DrainSendAccounted(s: State, x: Item)
    requires Accounted(s) && Enabled(s, DrainSend(x))
    ensures Accounted(Apply(s, DrainSend(x)))
  {
    DeliveredOne(s.delivered, x);
    Moved(s.heap, multiset(s.delivered), s.evicted + s.dropped, x);
  }

  lemma {:induction false} DrainDropAccounted(s: State, x: Item)
    requires Accounted(s) && Enabled(s, DrainDrop(x))
    ensures Accounted(Apply(s, DrainDrop(x)))
  {
    Moved(s.heap, s.dropped, multiset(s.delivered) + s.evicted, x);
  }

  lemma {:induction false} KeepsAccounted(s: State, step: Step)
    requires Accounted(s) && Enabled(s, step)
    ensures Accounted(Apply(s, step))
  {
    match step {
      case Enqueue(x, v) =>
        if Admitted(v) {
          AdmissionAccounted(s, x, v, Apply(s, step));
        }
      case Pop(x) => PopAccounted(s, x);
      case Deliver => DeliverAccounted(s);
      case AbortSend => AbortAccounted(s);
      case DrainSend(x) => DrainSendAccounted(s, x);
      case DrainDrop(x) => DrainDropAccounted(s, x);
      case _ => SamePlacesAccounted(s, Apply(s, step));
    }
  }

  lemma {:induction false} SamePlacesAccounted(s: State, next: State)
    requires Accounted(s) && Hand(next) == Hand(s) && next.heap == s.heap && next.delivered == s.delivered
    requires next.accepted == s.accepted && next.evicted == s.evicted && next.dropped == s.dropped
    ensures Accounted(next)
  {
  }

  lemma {:induction false} OneMoreDelivery(x: Item, ds: seq<Item>, d: Item)
    ensures Inversions(x, ds + [d]) == Inversions(x, ds) + (if Before(x, d) then 1 else 0)
  {
    assert (ds + [d])[..|ds|] == ds;
  }

  /** A delivery of an item that x is not ahead of, or of the held item, keeps x passed over at most once. */
  lemma {:induction false} DeliveryKeepsPassedOnce(s: State, next: State, x: Item, d: Item)
    requires PassedOnce(s, x) && next.delivered == s.delivered + [d] && next.entered == s.entered && !next.pc.Sending?
    requires s.pc == Sending(d) || AtMost(d, x)
    ensures PassedOnce(next, x)
  {
    assert Since(next, x) == Since(s, x) + [d];
    OneMoreDelivery(x, Since(s, x), d);
  }

  lemma {:induction false} DeliveryKeepsFair(s: State, next: State, d: Item)
    requires Fair(s) && next.delivered == s.delivered + [d] && next.entered == s.entered && !next.pc.Sending?
    requires forall x :: x in next.heap ==> x in s.heap
    requires s.pc == Sending(d) || forall x :: x in s.heap ==> AtMost(d, x)
    ensures Fair(next)
  {
    forall x | x in next.heap
      ensures PassedOnce(next, x)
    {
      DeliveryKeepsPassedOnce(s, next, x, d);
    }
  }

  /** Steps that deliver and admit nothing, and take nothing new in hand. */
  lemma {:induction false} QuietKeepsFair(s: State, next: State)
    requires Fair(s) && next.delivered == s.delivered && next.entered == s.entered
    requires forall x :: x in next.heap ==> x in s.heap
    requires next.pc.Sending? ==> next.pc == s.pc
    ensures Fair(next)
  {
    forall x | x in next.heap
      ensures PassedOnce(next, x)
    {
      assert PassedOnce(s, x) && Since(next, x) == Since(s, x);
    }
    if next.pc.Sending? {
      assert Since(next, next.pc.item) == Since(s, next.pc.item);
    }
  }

  lemma {:induction false} AdmissionKeepsFair(s: State, next: State, x: Item)
    requires Fair(s) && next.delivered == s.delivered && next.entered == s.entered[x := |s.delivered|]
      && next.pc == s.pc
    requires forall y :: y in next.heap ==> y == x || y in s.heap
    ensures Fair(next)
  {
    assert Since(next, x) == [];
    forall y | y in next.heap || next.pc == Sending(y)
      ensures PassedOnce(next, y)
    {
      if y != x {
        assert PassedOnce(s, y) && Since(next, y) == Since(s, y);
      }
    }
  }

  /** The popped item is least, so it passes nobody over. */
  lemma {:induction false} PopKeepsFair(s: State, next: State, d: Item)
    requires Fair(s) && Least(d, s.heap) && next.pc == Sending(d) && !s.pc.Sending?
    requires next.heap == s.heap - multiset{d} && next.delivered == s.delivered && next.entered == s.entered
    ensures Fair(next)
  {
    forall x | x in next.heap || x == d
      ensures PassedOnce(next, x)
    {
      assert x in s.heap;
      assert PassedOnce(s, x) && Since(next, x) == Since(s, x);
    }
  }

  /** The steps that neither deliver nor take anything in hand nor admit. */
  predicate Quiet(step: Step) {
    !step.Pop? && !step.Deliver? && !step.DrainSend? && !(step.Enqueue? && Admitted(step.v))
  }

  /** Such a step leaves deliveries and admissions alone, and brings nothing into the heap or into hand. */
  lemma {:induction false} QuietMoves(s: State, step: Step, next: State)
    requires Enabled(s, step) && Quiet(step) && next == Apply(s, step)
    ensures next.delivered == s.delivered && next.entered == s.entered
    ensures next.heap == s.heap || (step.DrainDrop? && next.heap == s.heap - multiset{step.x})
    ensures next.pc.Sending? ==> next.pc == s.pc
  {
    match step {
      case Enqueue(x, v) =>
      case Notify =>
      case MarkClosed =>
      case CloseDone =>
      case Wake =>
      case WakeOnDone =>
      case PopNone =>
      case AbortSend =>
      case LockDrain =>
      case DrainDrop(x) =>
      case UnlockDrain =>
      case CloseDequeue =>
    }
  }

  lemma {:induction false} QuietStepKeepsFair(s: State, step: Step)
    requires Fair(s) && Enabled(s, step) && Quiet(step)
    ensures Fair(Apply(s, step))
  {
    var next := Apply(s, step);
    QuietMoves(s, step, next);
    QuietKeepsFair(s, next);
  }

  lemma {:induction false} DeliveringStepKeepsFair(s: State, step: Step)
    requires Fair(s) && Enabled(s, step) && Staged(s) && (step.Deliver? || step.DrainSend?)
    ensures Fair(Apply(s, step))
  {
    DeliveryKeepsFair(s, Apply(s, step), if step.Deliver? then s.pc.item else step.x);
  }

  lemma {:induction false} AdmittingStepKeepsFair(s: State, x: Item, v: Verdict)
    requires Fair(s) && Enabled(s, Enqueue(x, v)) && Admitted(v)
    ensures Fair(Apply(s, Enqueue(x, v)))
  {
    AdmissionKeepsFair(s, Apply(s, Enqueue(x, v)), x);
  }

  lemma {:induction false} KeepsFair(s: State, step: Step)
    requires Fair(s) && Enabled(s, step) && Staged(s)
    ensures Fair(Apply(s, step))
  {
    if Quiet(step) {
      QuietStepKeepsFair(s, step);
    } else if step.Enqueue? {
      AdmittingStepKeepsFair(s, step.x, step.v);
    } else if step.Pop? {
      PopKeepsFair(s, Apply(s, step), step.x);
    } else {
      DeliveringStepKeepsFair(s, step);
    }
  }

  lemma {:induction false} KeepsInv(s: State, step: Step)
    requires Inv(s) && Enabled(s, step)
    ensures Inv(Apply(s, step))
  {
    KeepsWakes(s, step);
    KeepsBounded(s, step);
    KeepsStaged(s, step);
    KeepsAccounted(s, step);
    KeepsFair(s, step);
  }

  lemma {:induction false} InitInv(s: State)
    requires Init(s)
    ensures Inv(s)
  {
  }

  lemma {:induction false} ReachableInv(states: seq<State>, steps: seq<Step>, t: nat)
    requires Run(states, steps) && t <= |steps|
    ensures Inv(states[t])
  {
    if t == 0 {
      InitInv(states[0]);
    } else {
      ReachableInv(states, steps, t - 1);
      KeepsInv(states[t - 1], steps[t - 1]);
    }
  }

  // ----- what every run guarantees -----

  /**
   No lost wakeup: with items waiting and no Enqueue inside its critical section, a token is in the
   slot or the dispatcher is not parked.
   */
  lemma {:induction false} NoLostWakeup(states: seq<State>, steps: seq<Step>, t: nat)
    requires Run(states, steps) && t <= |steps|
    requires states[t].heap != multiset{} && !states[t].lock.ByEnqueue?
    ensures states[t].notify || !states[t].pc.Parked?
  {
    ReachableInv(states, steps, t);
  }

  /** Capacity: the heap never exceeds maxSize, and with the held item never maxSize + 1. */
  lemma {:induction false} CapacityHolds(states: seq<State>, steps: seq<Step>, t: nat)
    requires Run(states, steps) && t <= |steps| && 0 <= states[t].maxSize
    ensures |states[t].heap| <= states[t].maxSize
    ensures |states[t].heap + Hand(states[t])| <= states[t].maxSize + 1
  {
    ReachableInv(states, steps, t);
  }

  predicate Admits(step: Step, x: Item) {
    step.Enqueue? && step.x == x && Admitted(step.v)
  }

  lemma {:induction false} EnteredStep(s: State, step: Step, next: State, x: Item)
    requires Enabled(s, step) && next == Apply(s, step) && !Admits(step, x) && x in s.entered
    ensures x in next.entered && next.entered[x] == s.entered[x]
  {
  }

  lemma {:induction false} EnteredNow(s: State, step: Step, next: State, x: Item)
    requires Enabled(s, step) && next == Apply(s, step) && Admits(step, x)
    ensures x in next.entered && next.entered[x] == |s.delivered|
  {
  }

  lemma {:induction false} EnteredStays(states: seq<State>, steps: seq<Step>, a: nat, b: nat, x: Item)
    requires Run(states, steps) && a < b <= |steps| && Admits(steps[a], x)
    requires forall t :: a < t < b ==> !Admits(steps[t], x)
    ensures x in states[b].entered && states[b].entered[x] == |states[a].delivered|
  {
    if a + 1 < b {
      EnteredStays(states, steps, a, b - 1, x);
      assert !Admits(steps[b - 1], x);
      EnteredStep(states[b - 1], steps[b - 1], states[b], x);
    } else {
      EnteredNow(states[a], steps[a], states[b], x);
    }
  }

  /**
   At most one priority inversion: from the step a that admits x to any later moment b at which x is
   still in the heap or in the dispatcher's hand, at most one delivered item is less urgent than x.
   */
  lemma {:induction false} AtMostOneInversion(states: seq<State>, steps: seq<Step>, a: nat, b: nat, x: Item)
    requires Run(states, steps) && a < b <= |steps| && Admits(steps[a], x)
    requires forall t :: a < t < b ==> !Admits(steps[t], x)
    requires x in states[b].heap || states[b].pc == Sending(x)
    ensures |states[a].delivered| <= |states[b].delivered|
    ensures Inversions(x, states[b].delivered[|states[a].delivered|..]) <= 1
  {
    EnteredStays(states, steps, a, b, x);
    ReachableInv(states, steps, b);
    assert PassedOnce(states[b], x);
  }

  // ----- what the steps of a run did -----

  /** What a step hands to a worker. */
  function HandedOver(s: State, step: Step): seq<Item> {
    match step
    case Deliver => if s.pc.Sending? then [s.pc.item] else []
    case DrainSend(x) => [x]
    case _ => []
  }

  /** What a step loses: the held item when done wins, or a drained item that no worker waits for. */
  function LostBy(s: State, step: Step): multiset<Item> {
    match step
    case AbortSend => if s.pc.Sending? then multiset{s.pc.item} else multiset{}
    case DrainDrop(x) => multiset{x}
    case _ => multiset{}
  }

  /** Everything that the first t steps handed to workers, in order. */
  function HandedOverBy(states: seq<State>, steps: seq<Step>, t: nat): seq<Item>
    requires t <= |steps| < |states|
  {
    if t == 0 then [] else HandedOverBy(states, steps, t - 1) + HandedOver(states[t - 1], steps[t - 1])
  }

  function LostSoFar(states: seq<State>, steps: seq<Step>, t: nat): multiset<Item>
    requires t <= |steps| < |states|
  {
    if t == 0 then multiset{} else LostSoFar(states, steps, t - 1) + LostBy(states[t - 1], steps[t - 1])
  }

  lemma {:induction false} StepRecordsDelivery(s: State, step: Step)
    requires Enabled(s, step)
    ensures Apply(s, step).delivered == s.delivered + HandedOver(s, step)
  {
    match step {
      case Enqueue(x, v) =>
      case Notify =>
      case MarkClosed =>
      case CloseDone =>
      case Wake =>
      case WakeOnDone =>
      case PopNone =>
      case Pop(x) =>
      case Deliver =>
      case AbortSend =>
      case LockDrain =>
      case DrainSend(x) =>
      case DrainDrop(x) =>
      case UnlockDrain =>
      case CloseDequeue =>
    }
  }

  lemma {:induction false} StepRecordsLoss(s: State, step: Step)
    requires Enabled(s, step)
    ensures Apply(s, step).dropped == s.dropped + LostBy(s, step)
  {
    match step {
      case Enqueue(x, v) =>
      case Notify =>
      case MarkClosed =>
      case CloseDone =>
      case Wake =>
      case WakeOnDone =>
      case PopNone =>
      case Pop(x) =>
      case Deliver =>
      case AbortSend =>
      case LockDrain =>
      case DrainSend(x) =>
      case DrainDrop(x) =>
      case UnlockDrain =>
      case CloseDequeue =>
    }
  }

  lemma {:induction false} DeliveriesAddUp(states: seq<State>, steps: seq<Step>, t: nat)
    requires t <= |steps| < |states| && states[0].delivered == []
    requires forall i :: 0 <= i < t ==> states[i + 1].delivered == states[i].delivered + HandedOver(states[i], steps[i])
    ensures states[t].delivered == HandedOverBy(states, steps, t)
  {
    if t != 0 {
      DeliveriesAddUp(states, steps, t - 1);
    }
  }

  lemma {:induction false} LossesAddUp(states: seq<State>, steps: seq<Step>, t: nat)
    requires t <= |steps| < |states| && states[0].dropped == multiset{}
    requires forall i :: 0 <= i < t ==> states[i + 1].dropped == states[i].dropped + LostBy(states[i], steps[i])
    ensures states[t].dropped == LostSoFar(states, steps, t)
  {
    if t != 0 {
      LossesAddUp(states, steps, t - 1);
    }
  }

  /** `delivered` is exactly what the run's sends handed to workers, in order, and `dropped` what its losses lost. */
  lemma {:induction false} RecordsAreTrue(states: seq<State>, steps: seq<Step>, t: nat)
    requires Run(states, steps) && t <= |steps|
    ensures states[t].delivered == HandedOverBy(states, steps, t)
    ensures states[t].dropped == LostSoFar(states, steps, t)
  {
    forall i | 0 <= i < t
      ensures states[i + 1].delivered == states[i].delivered + HandedOver(states[i], steps[i])
      ensures states[i + 1].dropped == states[i].dropped + LostBy(states[i], steps[i])
    {
      StepRecordsDelivery(states[i], steps[i]);
      StepRecordsLoss(states[i], steps[i]);
    }
    DeliveriesAddUp(states, steps, t);
    LossesAddUp(states, steps, t);
  }

  lemma {:induction false} LosesOnlyAfterDone(s: State, step: Step)
    requires Enabled(s, step) && Staged(s)
    ensures LostBy(s, step) != multiset{} ==> s.done
    ensures s.done ==> Apply(s, step).done
  {
    match step {
      case Enqueue(x, v) =>
      case Notify =>
      case MarkClosed =>
      case CloseDone =>
      case Wake =>
      case WakeOnDone =>
      case PopNone =>
      case Pop(x) =>
      case Deliver =>
      case AbortSend =>
      case LockDrain =>
      case DrainSend(x) =>
      case DrainDrop(x) =>
      case UnlockDrain =>
      case CloseDequeue =>
    }
  }

  lemma {:induction false} NothingLostYet(states: seq<State>, steps: seq<Step>, t: nat)
    requires Run(states, steps) && t <= |steps| && !states[t].done
    ensures states[t].dropped == multiset{}
  {
    if t != 0 {
      ReachableStaged(states, steps, t - 1);
      LosesOnlyAfterDone(states[t - 1], steps[t - 1]);
      NothingLostYet(states, steps, t - 1);
      StepRecordsLoss(states[t - 1], steps[t - 1]);
    }
  }

  /** Before shutdown nothing is lost: whatever leaves the heap then is delivered or evicted. */
  lemma {:induction false} NothingLostBeforeDone(states: seq<State>, steps: seq<Step>, t: nat)
    requires Run(states, steps) && t <= |steps| && !states[t].done
    ensures states[t].dropped == multiset{}
    ensures states[t].accepted == states[t].heap + Hand(states[t]) + multiset(states[t].delivered) + states[t].evicted
  {
    NothingLostYet(states, steps, t);
    ReachableInv(states, steps, t);
  }

  /** How many times the notify channel was sent on, received from, and the heap found empty. */
  datatype Tally = Tally(notified: nat, woken: nat, emptied: nat)

  function Count(c: Tally, step: Step): Tally {
    match step
    case Notify => c.(notified := c.notified + 1)
    case Wake => c.(woken := c.woken + 1)
    case PopNone => c.(emptied := c.emptied + 1)
    case _ => c
  }

  function Tallied(steps: seq<Step>, t: nat): Tally
    requires t <= |steps|
  {
    if t == 0 then Tally(0, 0, 0) else Count(Tallied(steps, t - 1), steps[t - 1])
  }

  /** Every wakeup was paid for by a send, and every empty look at the heap by a wakeup. */
  ghost predicate Paid(s: State, c: Tally) {
    && c.woken + (if s.notify then 1 else 0) <= c.notified
    && c.emptied + (if s.pc.Popping? || s.pc.Sending? then 1 else 0) <= c.woken
  }

  lemma {:induction false} StepKeepsPaid(s: State, step: Step, c: Tally)
    requires Enabled(s, step) && Paid(s, c)
    ensures Paid(Apply(s, step), Count(c, step))
  {
    match step {
      case Enqueue(x, v) =>
      case Notify =>
      case MarkClosed =>
      case CloseDone =>
      case Wake =>
      case WakeOnDone =>
      case PopNone =>
      case Pop(x) =>
      case Deliver =>
      case AbortSend =>
      case LockDrain =>
      case DrainSend(x) =>
      case DrainDrop(x) =>
      case UnlockDrain =>
      case CloseDequeue =>
    }
  }

  /**
   The dispatcher never spins: it wakes at most once per admission, and gives up on an empty heap at
   most once per wakeup.
   */
  lemma {:induction false} WakeupsArePaid(states: seq<State>, steps: seq<Step>, t: nat)
    requires Run(states, steps) && t <= |steps|
    ensures Paid(states[t], Tallied(steps, t))
  {
    if t != 0 {
      WakeupsArePaid(states, steps, t - 1);
      StepKeepsPaid(states[t - 1], steps[t - 1], Tallied(steps, t - 1));
    }
  }

  lemma {:induction false} StepKeepsAfterDone(s: State, step: Step)
    requires Enabled(s, step)
    ensures step.WakeOnDone? || step.AbortSend? || AfterDone(s.pc) ==> AfterDone(Apply(s, step).pc)
    ensures AfterDone(s.pc) ==> !step.Wake? && !step.Pop? && !step.Deliver? && !step.WakeOnDone? && !step.AbortSend?
  {
    match step {
      case Enqueue(x, v) =>
      case Notify =>
      case MarkClosed =>
      case CloseDone =>
      case Wake =>
      case WakeOnDone =>
      case PopNone =>
      case Pop(x) =>
      case Deliver =>
      case AbortSend =>
      case LockDrain =>
      case DrainSend(x) =>
      case DrainDrop(x) =>
      case UnlockDrain =>
      case CloseDequeue =>
    }
  }

  /** Once the dispatcher has seen done, in either select, it never wakes, pops or sends outside the drain again. */
  lemma {:induction false} DoneIsSeenOnce(states: seq<State>, steps: seq<Step>, t: nat, u: nat)
    requires Run(states, steps) && t < u <= |steps| && (steps[t].WakeOnDone? || steps[t].AbortSend?)
    ensures AfterDone(states[u].pc)
    ensures u < |steps| ==>
      !steps[u].Wake? && !steps[u].Pop? && !steps[u].Deliver? && !steps[u].WakeOnDone? && !steps[u].AbortSend?
  {
    if t + 1 < u {
      DoneIsSeenOnce(states, steps, t, u - 1);
    }
    StepKeepsAfterDone(states[u - 1], steps[u - 1]);
    if u < |steps| {
      StepKeepsAfterDone(states[u], steps[u]);
    }
  }

  /** The dequeue channel is closed, nothing is queued, and ds is all that was ever sent. */
  ghost predicate ShutDown(s: State, ds: seq<Item>) {
    s.pc.Stopped? && s.heap == multiset{} && s.delivered == ds
  }

  predicate UsesChannel(step: Step) {
    step.Deliver? || step.DrainSend? || step.CloseDequeue?
  }

  lemma {:induction false} StoppedStep(s: State, step: Step, next: State)
    requires Staged(s) && s.pc.Stopped? && Enabled(s, step) && next == Apply(s, step)
    ensures !UsesChannel(step) && ShutDown(next, s.delivered)
  {
  }

  lemma {:induction false} ReachableStaged(states: seq<State>, steps: seq<Step>, t: nat)
    requires Run(states, steps) && t <= |steps|
    ensures Staged(states[t])
  {
    ReachableInv(states, steps, t);
  }

  lemma {:induction false} StaysShutDown(states: seq<State>, steps: seq<Step>, t: nat, u: nat)
    requires Run(states, steps) && t <= u <= |steps| && states[t].pc.Stopped?
    ensures ShutDown(states[u], states[t].delivered)
  {
    if t < u {
      StaysShutDown(states, steps, t, u - 1);
      ReachableStaged(states, steps, u - 1);
      StoppedStep(states[u - 1], steps[u - 1], states[u]);
    } else {
      ReachableStaged(states, steps, t);
    }
  }

  /**
   Shutdown safety: once the dequeue channel is closed it stays closed, the heap is empty in every
   later state, and no later step sends on the channel or closes it again.
   */
  lemma {:induction false} ShutdownIsFinal(states: seq<State>, steps: seq<Step>, t: nat, u: nat)
    requires Run(states, steps) && t <= u <= |steps| && states[t].pc.Stopped?
    ensures ShutDown(states[u], states[t].delivered)
    ensures u < |steps| ==> !UsesChannel(steps[u])
  {
    StaysShutDown(states, steps, t, u);
    if u < |steps| {
      ReachableStaged(states, steps, u);
      StoppedStep(states[u], steps[u], states[u + 1]);
    }
  }

  /** The dequeue channel is closed at most once. */
  lemma {:induction false} ClosesOnce(states: seq<State>, steps: seq<Step>, t: nat, u: nat)
    requires Run(states, steps) && t < |steps| && u < |steps|
    requires steps[t].CloseDequeue? && steps[u].CloseDequeue?
    ensures t == u
  {
    if t < u {
      ShutdownIsFinal(states, steps, t + 1, u);
    } else if u < t {
      ShutdownIsFinal(states, steps, u + 1, t);
    }
  }

  /** When the channel is closed every accepted item was delivered, evicted or dropped. */
  lemma {:induction false} NothingLeftBehind(states: seq<State>, steps: seq<Step>, t: nat)
    requires Run(states, steps) && t <= |steps| && states[t].pc.Stopped?
    ensures states[t].accepted == multiset(states[t].delivered) + states[t].evicted + states[t].dropped
  {
    ReachableInv(states, steps, t);
  }

  lemma {:induction false} SomeLeast(q: multiset<Item>) returns (x: Item)
    requires q != multiset{}
    ensures Least(x, q)
    decreases |q|
  {
    x :| x in q;
    ghost var first, rest := x, q - multiset{x};
    if rest != multiset{} {
      var y := SomeLeast(rest);
      x := if Before(y, x) then y else x;
      forall z | z in q
        ensures AtMost(x, z)
      {
        assert z == first || z in rest;
      }
    } else {
      assert q == rest + multiset{first};
    }
  }

  lemma {:induction false} DrainingStep(s: State, step: Step)
    requires Staged(s) && s.pc.Draining? && Enabled(s, step)
    ensures |Apply(s, step).heap| <= |s.heap|
    ensures step.DrainSend? || step.DrainDrop? ==> |Apply(s, step).heap| == |s.heap| - 1
  {
    if step.DrainSend? || step.DrainDrop? {
      assert |s.heap - multiset{step.x}| == |s.heap| - 1;
    }
  }

  lemma {:induction false} DrainCanMove(s: State)
    requires s.pc.Draining?
    ensures Enabled(s, UnlockDrain) || exists x :: x in s.heap && Enabled(s, DrainDrop(x)) && Enabled(s, DrainSend(x))
  {
    if s.heap != multiset{} {
      var x := SomeLeast(s.heap);
      assert Enabled(s, DrainDrop(x)) && Enabled(s, DrainSend(x));
    }
  }

  /**
   The drain terminates on heap size: in a reachable draining state no step of anyone grows the heap,
   and the drain itself can always take a step, which removes an item or ends the drain.
   */
  lemma {:induction false} DrainTerminates(states: seq<State>, steps: seq<Step>, t: nat)
    requires Run(states, steps) && t <= |steps| && states[t].pc.Draining?
    ensures t < |steps| ==> |states[t + 1].heap| <= |states[t].heap|
    ensures t < |steps| && (steps[t].DrainSend? || steps[t].DrainDrop?) ==> |states[t + 1].heap| == |states[t].heap| - 1
    ensures Enabled(states[t], UnlockDrain) || exists x :: x in states[t].heap && Enabled(states[t], DrainDrop(x))
  {
    ReachableStaged(states, steps, t);
    DrainCanMove(states[t]);
    if t < |steps| {
      DrainingStep(states[t], steps[t]);
    }
  }

  /**
   The dispatcher is never stuck: before shutdown, with items waiting and the lock free, it can wake
   up, pop a least item, or is only waiting for a worker.
   */
  lemma {:induction false} DispatcherCanMove(states: seq<State>, steps: seq<Step>, t: nat)
    requires Run(states, steps) && t <= |steps|
    requires states[t].heap != multiset{} && states[t].lock.Free? && !states[t].done
    ensures Enabled(states[t], Wake) || Enabled(states[t], Deliver)
      || exists x :: x in states[t].heap && Enabled(states[t], Pop(x))
  {
    ReachableInv(states, steps, t);
    var x := SomeLeast(states[t].heap);
    if states[t].pc.Popping? {
      assert Enabled(states[t], Pop(x));
    }
  }

  /** The dispatcher's own steps of a shutdown, once it has seen done. */
  predicate Shuts(step: Step) {
    step.LockDrain? || step.DrainSend? || step.DrainDrop? || step.UnlockDrain? || step.CloseDequeue?
  }

  /** How many of them are left. */
  function StepsToStop(s: State): nat {
    match s.pc
    case WaitingToDrain => |s.heap| + 3
    case Draining => |s.heap| + 2
    case Closing => 1
    case _ => 0
  }

  /** Nobody else moves the dispatcher then, or brings anything in. */
  lemma {:induction false} OthersLeaveShutdown(s: State, step: Step)
    requires Enabled(s, step) && Staged(s) && AfterDone(s.pc) && !Shuts(step)
    ensures Apply(s, step).pc == s.pc && Apply(s, step).heap == s.heap
  {
    match step {
      case Enqueue(x, v) =>
      case Notify =>
      case MarkClosed =>
      case CloseDone =>
    }
  }

  lemma {:induction false} DrainingShuts(s: State, next: State, x: Item)
    requires s.pc.Draining? && x in s.heap && next.pc.Draining? && next.heap == s.heap - multiset{x}
    ensures StepsToStop(next) == StepsToStop(s) - 1
  {
    OneLess(s.heap, x);
  }

  lemma {:induction false} ShuttingStep(s: State, step: Step)
    requires Enabled(s, step) && Shuts(step)
    ensures StepsToStop(Apply(s, step)) == StepsToStop(s) - 1
  {
    if step.DrainSend? || step.DrainDrop? {
      DrainingShuts(s, Apply(s, step), step.x);
    } else if step.UnlockDrain? {
      assert |s.heap| == 0;
    }
  }

  lemma {:induction false} ShutdownStep(s: State, step: Step)
    requires Enabled(s, step) && Staged(s) && AfterDone(s.pc)
    ensures StepsToStop(Apply(s, step)) == StepsToStop(s) - (if Shuts(step) then 1 else 0)
  {
    if Shuts(step) {
      ShuttingStep(s, step);
    } else {
      OthersLeaveShutdown(s, step);
    }
  }

  lemma {:induction false} ShutdownCanMove(s: State)
    requires Staged(s) && AfterDone(s.pc) && !s.pc.Stopped?
    ensures Enabled(s, LockDrain) || Enabled(s, UnlockDrain) || Enabled(s, CloseDequeue)
      || exists x :: x in s.heap && Enabled(s, DrainDrop(x)) && Enabled(s, DrainSend(x))
  {
    if s.pc.Draining? {
      DrainCanMove(s);
    }
  }

  /**
   The shutdown ends: once the dispatcher has seen done, exactly StepsToStop of its own steps lead to the close of
   the dequeue channel. Nobody else's step changes that number, and until it is 0 the next one is never blocked.
   */
  lemma {:induction false} ShutdownEnds(states: seq<State>, steps: seq<Step>, t: nat)
    requires Run(states, steps) && t <= |steps| && AfterDone(states[t].pc)
    ensures StepsToStop(states[t]) == 0 <==> states[t].pc.Stopped?
    ensures t < |steps| ==>
      StepsToStop(states[t + 1]) == StepsToStop(states[t]) - (if Shuts(steps[t]) then 1 else 0)
    ensures var s := states[t];
      !s.pc.Stopped? ==>
        || Enabled(s, LockDrain) || Enabled(s, UnlockDrain) || Enabled(s, CloseDequeue)
        || exists x :: x in s.heap && Enabled(s, DrainDrop(x)) && Enabled(s, DrainSend(x))
  {
    ReachableStaged(states, steps, t);
    if t < |steps| {
      ShutdownStep(states[t], steps[t]);
    }
    if !states[t].pc.Stopped? {
      ShutdownCanMove(states[t]);
    }
  }

  /**
   Before shutdown the dispatcher rests only when nothing waits: otherwise it can wake, look into the
   heap, or hand over.
   */
  lemma {:induction false} RestsOnlyWhenIdle(states: seq<State>, steps: seq<Step>, t: nat)
    requires Run(states, steps) && t <= |steps| && states[t].lock.Free? && !states[t].done
    ensures var s := states[t];
      || (s.pc.Parked? && s.heap == multiset{} && !s.notify)
      || Enabled(s, Wake) || Enabled(s, PopNone) || Enabled(s, Deliver)
      || exists x :: x in s.heap && Enabled(s, Pop(x))
  {
    ReachableInv(states, steps, t);
    if states[t].heap != multiset{} {
      DispatcherCanMove(states, steps, t);
    }
  }

  // ----- what a Close loses -----

  /** These steps lead from s to end. */
  ghost predicate Leads(s: State, steps: seq<Step>, end: State)
    decreases |steps|
  {
    if steps == [] then s == end else Enabled(s, steps[0]) && Leads(Apply(s, steps[0]), steps[1..], end)
  }

  /** Accepted, and neither delivered, evicted nor dropped yet. */
  function Pending(s: State): multiset<Item> {
    s.heap + Hand(s)
  }

  lemma {:induction false} LeadsFirst(s: State, step: Step, more: seq<Step>, end: State)
    requires Enabled(s, step) && Leads(Apply(s, step), more, end)
    ensures Leads(s, [step] + more, end)
  {
    assert ([step] + more)[1..] == more;
  }

  /** Closed, and nothing left: nobody can bring anything in, so nothing is dropped. */
  lemma {:induction false} NothingToDrop(s: State, steps: seq<Step>, end: State)
    requires Staged(s) && s.closed && Pending(s) == multiset{} && Leads(s, steps, end)
    ensures end.dropped == s.dropped
    decreases |steps|
  {
    if steps != [] {
      NothingDroppedNow(s, steps[0]);
      KeepsStaged(s, steps[0]);
      NothingToDrop(Apply(s, steps[0]), steps[1..], end);
    }
  }

  lemma {:induction false} NothingDroppedNow(s: State, step: Step)
    requires s.closed && Pending(s) == multiset{} && Enabled(s, step)
    ensures var next := Apply(s, step); next.closed && Pending(next) == multiset{} && next.dropped == s.dropped
  {
    assert s.heap == Hand(s) == multiset{};
  }

  /** The drain with no worker waiting. */
  lemma {:induction false} DrainsAway(s: State) returns (steps: seq<Step>, end: State)
    requires s.pc.Draining?
    ensures Leads(s, steps, end) && end.dropped == s.dropped + s.heap
    decreases |s.heap|
  {
    if s.heap == multiset{} {
      steps, end := [], s;
    } else {
      var x := SomeLeast(s.heap);
      var next := Apply(s, DrainDrop(x));
      TakenOut(s.heap, x);
      assert |next.heap| == |s.heap| - 1;
      var more, last := DrainsAway(next);
      LeadsFirst(s, DrainDrop(x), more, last);
      steps, end := [DrainDrop(x)] + more, last;
    }
  }

  lemma {:induction false} DrainsAwayFrom(s: State) returns (steps: seq<Step>, end: State)
    requires s.pc.WaitingToDrain? && s.lock.Free?
    ensures Leads(s, steps, end) && end.dropped == s.dropped + s.heap
  {
    var next := Apply(s, LockDrain);
    var more, last := DrainsAway(next);
    LeadsFirst(s, LockDrain, more, last);
    steps, end := [LockDrain] + more, last;
  }

  /** Blocked on a worker or parked, the dispatcher notices done, and what it holds is lost. */
  lemma {:induction false} LosesFrom(s: State) returns (steps: seq<Step>, end: State)
    requires s.done && s.lock.Free? && (s.pc.Sending? || s.pc.Parked?)
    ensures Leads(s, steps, end) && end.dropped == s.dropped + Pending(s)
  {
    var step := if s.pc.Sending? then AbortSend else WakeOnDone;
    var next := Apply(s, step);
    var more, last := DrainsAwayFrom(next);
    LeadsFirst(s, step, more, last);
    assert last.dropped == s.dropped + Hand(s) + s.heap;
    steps, end := [step] + more, last;
  }

  lemma {:induction false} LosesFromPopping(s: State) returns (steps: seq<Step>, end: State)
    requires s.done && s.lock.Free? && s.pc.Popping? && s.heap != multiset{}
    ensures Leads(s, steps, end) && end.dropped == s.dropped + Pending(s)
  {
    var x := SomeLeast(s.heap);
    var next := Apply(s, Pop(x));
    TakenOut(s.heap, x);
    var more, last := LosesFrom(next);
    LeadsFirst(s, Pop(x), more, last);
    steps, end := [Pop(x)] + more, last;
  }

  lemma {:induction false} LosesOnceDone(s: State) returns (steps: seq<Step>, end: State)
    requires Staged(s) && s.done && Pending(s) != multiset{}
    ensures Leads(s, steps, end) && end.dropped == s.dropped + Pending(s)
  {
    if s.pc.Sending? || s.pc.Parked? {
      steps, end := LosesFrom(s);
    } else {
      assert Hand(s) == multiset{} && s.heap != multiset{};
      if s.pc.Popping? {
        steps, end := LosesFromPopping(s);
      } else if s.pc.WaitingToDrain? {
        steps, end := DrainsAwayFrom(s);
      } else {
        steps, end := DrainsAway(s);
      }
    }
  }

  /** After Close has set closed, everything that is still pending can be lost. */
  lemma {:induction false} CanLoseAll(s: State) returns (steps: seq<Step>, end: State)
    requires Staged(s) && s.closed && Pending(s) != multiset{}
    ensures Leads(s, steps, end) && end.dropped == s.dropped + Pending(s)
  {
    if s.done {
      steps, end := LosesOnceDone(s);
    } else {
      var next := Apply(s, CloseDone);
      KeepsStaged(s, CloseDone);
      var more, last := LosesOnceDone(next);
      LeadsFirst(s, CloseDone, more, last);
      steps, end := [CloseDone] + more, last;
    }
  }

  lemma Grew(dropped: multiset<Item>, more: multiset<Item>)
    requires more != multiset{}
    ensures dropped + more != dropped
  {
    assert |dropped + more| == |dropped| + |more|;
  }

  lemma {:induction false} LosesNothing(s: State)
    requires Staged(s) && s.closed && Pending(s) == multiset{}
    ensures forall steps, end :: Leads(s, steps, end) ==> end.dropped == s.dropped
  {
    forall steps, end | Leads(s, steps, end)
      ensures end.dropped == s.dropped
    {
      NothingToDrop(s, steps, end);
    }
  }

  lemma {:induction false} LosesSomething(s: State)
    requires Staged(s) && s.closed && Pending(s) != multiset{}
    ensures exists steps, end ::
      Leads(s, steps, end) && end.dropped == s.dropped + Pending(s) && end.dropped != s.dropped
  {
    var steps, end := CanLoseAll(s);
    Grew(s.dropped, Pending(s));
  }

  /**
   What Close promises, exactly: from any reachable state in which it has set closed, some continuation
   drops an item if and only if one is pending then, in the heap or in the dispatcher's hand. What is
   pending was accepted, and all of it can be dropped.
   */
  lemma {:induction false} CloseLosesIff(states: seq<State>, steps: seq<Step>, t: nat)
    requires Run(states, steps) && t <= |steps| && states[t].closed
    ensures (exists more, end :: Leads(states[t], more, end) && end.dropped != states[t].dropped) <==>
      Pending(states[t]) != multiset{}
    ensures Pending(states[t]) != multiset{} ==>
      exists more, end :: Leads(states[t], more, end) && end.dropped == states[t].dropped + Pending(states[t])
    ensures Pending(states[t]) <= states[t].accepted
  {
    ReachableInv(states, steps, t);
    if Pending(states[t]) == multiset{} {
      LosesNothing(states[t]);
    } else {
      LosesSomething(states[t]);
    }
  }

  lemma {:induction false} RunOn(states: seq<State>, steps: seq<Step>, step: Step)
    requires Run(states, steps) && Enabled(states[|steps|], step)
    ensures Run(states + [Apply(states[|steps|], step)], steps + [step])
  {
  }

  lemma {:induction false} RunThen(states: seq<State>, steps: seq<Step>, more: seq<Step>, end: State)
    returns (all: seq<State>)
    requires Run(states, steps) && Leads(states[|steps|], more, end)
    ensures Run(all, steps + more) && states <= all && all[|all| - 1] == end
    decreases |more|
  {
    if more == [] {
      all := states;
      assert steps + [] == steps;
    } else {
      var longer, taken := states + [Apply(states[|steps|], more[0])], steps + [more[0]];
      RunOn(states, steps, more[0]);
      assert longer[|taken|] == Apply(states[|steps|], more[0]);
      all := RunThen(longer, taken, more[1..], end);
      assert steps + more == taken + more[1..];
    }
  }

  /** An open queue with x accepted, and nothing else ever. */
  ghost predicate OnlyEver(s: State, x: Item) {
    && !s.closed && !s.done && s.lock.Free? && s.dropped == multiset{} && s.accepted == multiset{x}
  }

  lemma {:induction false} ComesIn(x: Item, s0: State) returns (s1: State, s2: State)
    requires Init(s0) && 1 <= s0.maxSize
    ensures Enabled(s0, Enqueue(x, Accepted)) && s1 == Apply(s0, Enqueue(x, Accepted))
    ensures Enabled(s1, Notify) && s2 == Apply(s1, Notify)
    ensures OnlyEver(s2, x) && s2.heap == multiset{x} && s2.pc.Parked? && s2.notify
  {
    s1 := Apply(s0, Enqueue(x, Accepted));
    s2 := Apply(s1, Notify);
  }

  lemma {:induction false} IsTaken(x: Item, s2: State) returns (s3: State, s4: State)
    requires OnlyEver(s2, x) && s2.heap == multiset{x} && s2.pc.Parked? && s2.notify
    ensures Enabled(s2, Wake) && s3 == Apply(s2, Wake)
    ensures Enabled(s3, Pop(x)) && s4 == Apply(s3, Pop(x))
    ensures OnlyEver(s4, x) && s4.heap == multiset{} && s4.pc == Sending(x)
  {
    s3 := Apply(s2, Wake);
    s4 := Apply(s3, Pop(x));
  }

  /** One item comes in and is taken in hand. */
  lemma {:induction false} PopsAlone(x: Item, s0: State) returns (s4: State)
    requires Init(s0) && 1 <= s0.maxSize
    ensures Leads(s0, [Enqueue(x, Accepted)] + ([Notify] + ([Wake] + ([Pop(x)] + []))), s4)
    ensures OnlyEver(s4, x) && s4.heap == multiset{} && s4.pc == Sending(x)
  {
    var s1, s2 := ComesIn(x, s0);
    var s3;
    s3, s4 := IsTaken(x, s2);
    LeadsFirst(s3, Pop(x), [], s4);
    LeadsFirst(s2, Wake, [Pop(x)] + [], s4);
    LeadsFirst(s1, Notify, [Wake] + ([Pop(x)] + []), s4);
    LeadsFirst(s0, Enqueue(x, Accepted), [Notify] + ([Wake] + ([Pop(x)] + [])), s4);
  }

  /**
   Such a loss on an example: for any item there is a run in which it is accepted, the heap is empty
   when Close is called, and the item is lost from the dispatcher's hand without being offered to the
   drain. (A queue of size at least 1 is all that is needed.)
   */
  lemma {:induction false} HeldItemCanBeLost(x: Item, s0: State) returns (states: seq<State>, steps: seq<Step>, t: nat)
    requires Init(s0) && 1 <= s0.maxSize
    ensures Run(states, steps) && states[0] == s0 && t < |steps| && steps[t] == MarkClosed
    ensures states[t].heap == multiset{} && states[t].accepted == multiset{x}
    ensures states[|steps|].dropped == multiset{x}
  {
    var s4 := PopsAlone(x, s0);
    var before := [Enqueue(x, Accepted)] + ([Notify] + ([Wake] + ([Pop(x)] + [])));
    states := RunThen([s0], [], before, s4);
    assert [] + before == before;
    var after, end := LosesOnClose(s4);
    states := RunThen(states, before, after, end);
    t, steps := 4, before + after;
  }

  lemma {:induction false} LosesOnClose(s: State) returns (steps: seq<Step>, end: State)
    requires s.lock.Free? && !s.closed && !s.done && s.heap == multiset{} && s.pc.Sending?
    ensures Leads(s, steps, end) && steps != [] && steps[0] == MarkClosed
    ensures end.dropped == s.dropped + multiset{s.pc.item}
  {
    var next := Apply(s, MarkClosed);
    KeepsStaged(s, MarkClosed);
    var more, last := CanLoseAll(next);
    LeadsFirst(s, MarkClosed, more, last);
    steps, end := [MarkClosed] + more, last;
  }
}
