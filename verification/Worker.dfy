/**
 processItem as the worker runs it (internal/worker/worker.go), branch by branch on the request
 table, proved to be a path through the steps of Lifecycle. Other goroutines' steps may come in
 between in the protocol; here they are absent.
 */
module Workers {
  import opened PriorityQueues
  import B = Backoff
  import L = Lifecycle

  /** What the world answers during one call of processItem. */
  datatype World = World(
    readable: bool,      // the row could be read
    keyFound: bool,      // GetKey returned a key
    decrypts: bool,      // the key could be decrypted
    answer: L.Answer,    // what the HTTP call came back with
    unit: real)          // the random number of the backoff

  /** The machine can go from s to t by these steps. */
  ghost predicate Path(s: L.State, steps: seq<L.Step>, t: L.State)
    decreases |steps|
  {
    if steps == [] then s == t
    else L.Enabled(s, steps[0]) && Path(L.Apply(s, steps[0]), steps[1..], t)
  }

  ghost predicate Moves(s: L.State, step: L.Step, t: L.State) {
    L.Enabled(s, step) && t == L.Apply(s, step)
  }

  lemma {:induction false} PathThen(s: L.State, steps: seq<L.Step>, m: L.State, step: L.Step, t: L.State)
    requires Path(s, steps, m) && Moves(m, step, t)
    ensures Path(s, steps + [step], t)
    decreases |steps|
  {
    if steps == [] {
      assert ([] + [step])[1..] == [];
    } else {
      PathThen(L.Apply(s, steps[0]), steps[1..], m, step, t);
      assert (steps + [step])[1..] == steps[1..] + [step];
    }
  }

  /** The row after a result: success, another retry noted, or failed for good. */
  function Settled(row: L.Record, ok: bool, again: bool, attempt: nat, unit: real): L.Record {
    if ok then row.(status := L.Success)
    else if again then row.(retries := row.retries + [L.Retry(attempt, unit)])
    else row.(status := L.Failed)
  }

  class Worker {
    const id: nat
    const cfg: B.Config
    var db: map<string, L.Record>
    var timers: multiset<Item>      // goroutines that delayedEnqueue has started
    var finished: multiset<Item>

    /** The protocol state that the fields are part of. */
    ghost var at: L.State

    ghost predicate Valid()
      reads this
    {
      at.db == db && at.timers == timers && at.finished == finished && at.cfg == cfg && id < |at.workers|
    }

    /** This worker is in the given phase. */
    ghost predicate InPhase(p: L.Phase)
      reads this
    {
      Valid() && at.workers[id] == p
    }

    constructor (id: nat, s: L.State)
      requires id < |s.workers|
      ensures Valid() && at == s && this.id == id
    {
      this.id, cfg, db, timers, finished, at := id, s.cfg, s.db, s.timers, s.finished, s;
    }

    /** The timer goroutine is started, whatever the delay. */
    method DelayedEnqueue(item: Item)
      modifies this`timers
      ensures timers == old(timers) + multiset{item}
    {
      timers := timers + multiset{item};
    }

    method PersistResult(item: Item, status: L.Status)
      requires item.RequestID in db
      modifies this`db, this`finished
      ensures db == old(db)[item.RequestID := old(db)[item.RequestID].(status := status)]
      ensures finished == old(finished) + multiset{item}
    {
      db := db[item.RequestID := db[item.RequestID].(status := status)];
      finished := finished + multiset{item};
    }

    /** Retry while attempts are left, otherwise fail for good. */
    method HandleFailure(item: Item, reqAttempts: nat, unit: real)
      requires item.RequestID in db
      modifies this`db, this`timers, this`finished
      ensures var row := old(db)[item.RequestID];
        if reqAttempts + 1 < cfg.maxAttempts then
          && timers == old(timers) + multiset{item} && finished == old(finished)
          && db == old(db)[item.RequestID := row.(retries := row.retries + [L.Retry(reqAttempts, unit)])]
        else
          && timers == old(timers) && finished == old(finished) + multiset{item}
          && db == old(db)[item.RequestID := row.(status := L.Failed)]
    {
      var attempts := reqAttempts + 1;
      if B.ShouldRetry(attempts, cfg) {
        var row := db[item.RequestID];
        db := db[item.RequestID := row.(retries := row.retries + [L.Retry(attempts - 1, unit)])];
        DelayedEnqueue(item);
      } else {
        PersistResult(item, L.Failed);
      }
    }

    /** The request has succeeded, goes to a timer for another try, or has failed for good; only its row has changed. */
    ghost predicate Ended(item: Item, after: L.Record, again: bool,
            db0: map<string, L.Record>, timers0: multiset<Item>, finished0: multiset<Item>)
      reads this
    {
      && timers == timers0 + (if again then multiset{item} else multiset{})
      && finished == finished0 + (if again then multiset{} else multiset{item})
      && db == db0[item.RequestID := after]
    }

    /** The steps that the world makes this call take. */
    ghost function StepsOf(item: Item, world: World): seq<L.Step>
      reads this
    {
      if !world.readable || item.RequestID !in db || L.Terminal(db[item.RequestID].status) then [L.Skip(id)]
      else if !world.keyFound then [L.Load(id), L.NoKey(id)]
      else [L.Load(id)] + ([L.GotKey(id)] + KeyedSteps(world))
    }

    /** The protocol can take this step, and the fields already hold its effect. */
    ghost predicate Reflects(step: L.Step)
      reads this
    {
      L.Enabled(at, step) &&
      var next := L.Apply(at, step);
      next.db == db && next.timers == timers && next.finished == finished && next.cfg == cfg && id < |next.workers|
    }

    ghost method Follow(step: L.Step)
      requires Reflects(step)
      modifies this`at
      ensures Valid() && at == L.Apply(old(at), step)
    {
      at := L.Apply(at, step);
    }

    /** The item is let go of without a word: unreadable, missing, or already done. */
    method Skip(item: Item)
      requires InPhase(L.Loading(item))
      modifies this`finished, this`at
      ensures Moves(old(at), L.Skip(id), at) && InPhase(L.Idle)
      ensures finished == old(finished) + multiset{item}
    {
      finished := finished + multiset{item};
      Follow(L.Skip(id));
    }

    /** The row is read. */
    method Read(item: Item) returns (req: L.Record)
      requires InPhase(L.Loading(item)) && item.RequestID in db && !L.Terminal(db[item.RequestID].status)
      modifies this`at
      ensures Moves(old(at), L.Load(id), at)
      ensures req == db[item.RequestID] && InPhase(L.NeedsKey(item, req.attempts))
    {
      req := db[item.RequestID];
      Follow(L.Load(id));
    }

    /** No key: back to the queue after a delay, with the row as it is. */
    method RequeueWithDelay(item: Item, ghost attempts: nat)
      requires InPhase(L.NeedsKey(item, attempts)) && item.RequestID in db
      modifies this`timers, this`at
      ensures Moves(old(at), L.NoKey(id), at) && InPhase(L.Idle)
      ensures timers == old(timers) + multiset{item}
    {
      DelayedEnqueue(item);
      Follow(L.NoKey(id));
    }

    /** A key is held: the row is marked, with one attempt more. */
    method MarkProcessing(item: Item, req: L.Record)
      requires InPhase(L.NeedsKey(item, req.attempts)) && item.RequestID in db && req == db[item.RequestID]
      modifies this`db, this`at
      ensures Moves(old(at), L.GotKey(id), at)
      ensures InPhase(L.Keyed(item, req.attempts)) && item.RequestID in db
      ensures db == old(db)[item.RequestID := req.(status := L.Processing, attempts := req.attempts + 1)]
    {
      db := db[item.RequestID := req.(status := L.Processing, attempts := req.attempts + 1)];
      Follow(L.GotKey(id));
    }

    method DecryptFailed(item: Item, reqAttempts: nat, unit: real)
      requires InPhase(L.Keyed(item, reqAttempts)) && item.RequestID in db && B.Jitter(unit)
      modifies this
      ensures Moves(old(at), L.DecryptFails(id, unit), at) && InPhase(L.Idle)
      ensures var again := reqAttempts + 1 < cfg.maxAttempts;
        Ended(item, Settled(old(db)[item.RequestID], false, again, reqAttempts, unit), again,
              old(db), old(timers), old(finished))
    {
      HandleFailure(item, reqAttempts, unit);
      Follow(L.DecryptFails(id, unit));
    }

    /** The HTTP request goes out. */
    method Send(item: Item, ghost attempts: nat)
      requires InPhase(L.Keyed(item, attempts)) && item.RequestID in db
      modifies this`db, this`at
      ensures Moves(old(at), L.Call(id), at)
      ensures InPhase(L.InFlight(item, attempts)) && item.RequestID in db
      ensures var row := old(db)[item.RequestID]; db == old(db)[item.RequestID := row.(calls := row.calls + 1)]
    {
      var row := db[item.RequestID];
      db := db[item.RequestID := row.(calls := row.calls + 1)];
      Follow(L.Call(id));
    }

    /** The branches on the answer: success, retry, or permanent failure. */
    method HandleResult(item: Item, reqAttempts: nat, answer: L.Answer, unit: real)
      requires item.RequestID in db
      modifies this`db, this`timers, this`finished
      ensures var again := L.Retryable(answer) && reqAttempts + 1 < cfg.maxAttempts;
        Ended(item, Settled(old(db)[item.RequestID], L.Succeeded(answer), again, reqAttempts, unit), again,
              old(db), old(timers), old(finished))
    {
      if answer.NetworkError? {
        HandleFailure(item, reqAttempts, unit);
      } else if answer.status >= 200 && answer.status < 300 {
        PersistResult(item, L.Success);
      } else if answer.status == 429 || answer.status >= 500 {
        HandleFailure(item, reqAttempts, unit);
      } else {
        PersistResult(item, L.Failed);
      }
    }

    /** The answer is handled, as the protocol's step. */
    method Settle(item: Item, reqAttempts: nat, answer: L.Answer, unit: real)
      requires InPhase(L.InFlight(item, reqAttempts)) && item.RequestID in db && B.Jitter(unit)
      modifies this
      ensures Moves(old(at), L.Finish(id, answer, unit), at) && InPhase(L.Idle)
      ensures var again := L.Retryable(answer) && reqAttempts + 1 < cfg.maxAttempts;
        Ended(item, Settled(old(db)[item.RequestID], L.Succeeded(answer), again, reqAttempts, unit), again,
              old(db), old(timers), old(finished))
    {
      HandleResult(item, reqAttempts, answer, unit);
      Follow(L.Finish(id, answer, unit));
    }

    /** The call and its result. */
    method CallAndSettle(item: Item, reqAttempts: nat, answer: L.Answer, unit: real)
      requires InPhase(L.Keyed(item, reqAttempts)) && item.RequestID in db && B.Jitter(unit)
      modifies this
      ensures InPhase(L.Idle) && Path(old(at), [L.Call(id), L.Finish(id, answer, unit)], at)
      ensures
        var row := old(db)[item.RequestID];
        var again := L.Retryable(answer) && reqAttempts + 1 < cfg.maxAttempts;
        Ended(item, Settled(row.(calls := row.calls + 1), L.Succeeded(answer), again, reqAttempts, unit), again,
              old(db), old(timers), old(finished))
    {
      ghost var s0 := at;
      Send(item, reqAttempts);
      ghost var s1 := at;
      Settle(item, reqAttempts, answer, unit);
      PathOf2(s0, L.Call(id), s1, L.Finish(id, answer, unit), at);
    }

    /** The steps once a key is held, as the world answers. */
    ghost function KeyedSteps(world: World): seq<L.Step> {
      if world.decrypts then [L.Call(id), L.Finish(id, world.answer, world.unit)] else [L.DecryptFails(id, world.unit)]
    }

    /** With the key: decrypt, call, settle. */
    method UseKey(item: Item, reqAttempts: nat, world: World)
      requires InPhase(L.Keyed(item, reqAttempts)) && item.RequestID in db && B.Jitter(world.unit)
      modifies this
      ensures InPhase(L.Idle) && Path(old(at), KeyedSteps(world), at)
      ensures
        var row := old(db)[item.RequestID];
        var again := (world.decrypts ==> L.Retryable(world.answer)) && reqAttempts + 1 < cfg.maxAttempts;
        var called := if world.decrypts then row.(calls := row.calls + 1) else row;
        var ok := world.decrypts && L.Succeeded(world.answer);
        Ended(item, Settled(called, ok, again, reqAttempts, world.unit), again, old(db), old(timers), old(finished))
    {
      // 4. the key is decrypted
      if !world.decrypts {
        ghost var s0 := at;
        DecryptFailed(item, reqAttempts, world.unit);
        PathOf1(s0, L.DecryptFails(id, world.unit), at);
        return;
      }

      // 5. and 6. the call and the result
      CallAndSettle(item, reqAttempts, world.answer, world.unit);
    }

    /** From the key to the result: mark it as processing, and use it. */
    method Execute(item: Item, req: L.Record, world: World)
      requires InPhase(L.NeedsKey(item, req.attempts)) && item.RequestID in db && req == db[item.RequestID]
      requires B.Jitter(world.unit)
      modifies this
      ensures InPhase(L.Idle) && Path(old(at), [L.GotKey(id)] + KeyedSteps(world), at)
      ensures
        var again := (world.decrypts ==> L.Retryable(world.answer)) && req.attempts + 1 < cfg.maxAttempts;
        var marked := req.(status := L.Processing, attempts := req.attempts + 1);
        var called := if world.decrypts then marked.(calls := req.calls + 1) else marked;
        var ok := world.decrypts && L.Succeeded(world.answer);
        Ended(item, Settled(called, ok, again, req.attempts, world.unit), again, old(db), old(timers), old(finished))
    {
      // 3. marked as processing
      ghost var s0 := at;
      MarkProcessing(item, req);
      ghost var s1 := at;
      UseKey(item, req.attempts, world);
      StepThen(s0, L.GotKey(id), s1, KeyedSteps(world), at);
    }

    /**
     One call on an item just received: exactly the protocol steps that the world's answers call for,
     after which the worker is idle again. Its whole effect, in the table and on the item:
     - unreadable, missing, success or failed: let go of, with no row changed;
     - no key: to a timer, with no row changed;
     - otherwise one attempt more, one call more if the key decrypts, and the status that the result calls for.
     */
    method ProcessItem(item: Item, world: World)
      requires InPhase(L.Loading(item)) && B.Jitter(world.unit)
      modifies this
      ensures InPhase(L.Idle)
      ensures Path(old(at), old(StepsOf(item, world)), at)
      ensures (!world.readable || item.RequestID !in old(db)
               || old(db)[item.RequestID].status in {L.Success, L.Failed}) ==>
        db == old(db) && timers == old(timers) && finished == old(finished) + multiset{item}
      ensures (world.readable && item.RequestID in old(db) && !world.keyFound
               && old(db)[item.RequestID].status !in {L.Success, L.Failed}) ==>
        db == old(db) && timers == old(timers) + multiset{item} && finished == old(finished)
      ensures (world.readable && item.RequestID in old(db) && world.keyFound
               && old(db)[item.RequestID].status !in {L.Success, L.Failed}) ==>
        var row := old(db)[item.RequestID];
        var answer := world.answer;
        var ok := world.decrypts && answer.Code? && 200 <= answer.status < 300;
        var again := row.attempts + 1 < cfg.maxAttempts
          && (!world.decrypts || answer.NetworkError? || answer.status == 429 || answer.status >= 500);
        && timers == old(timers) + (if again then multiset{item} else multiset{})
        && finished == old(finished) + (if again then multiset{} else multiset{item})
        && item.RequestID in db && db == old(db)[item.RequestID := db[item.RequestID]]
        && db[item.RequestID].attempts == row.attempts + 1
        && db[item.RequestID].calls == row.calls + (if world.decrypts then 1 else 0)
        && db[item.RequestID].status == (if ok then L.Success else if again then L.Processing else L.Failed)
        && db[item.RequestID].retries == row.retries + (if again then [L.Retry(row.attempts, world.unit)] else [])
    {
      ghost var s0 := at;
      // 1. load the row; done requests are skipped
      if !world.readable || item.RequestID !in db {
        Skip(item);
        PathOf1(s0, L.Skip(id), at);
        return;
      }
      var status := db[item.RequestID].status;
      if status == L.Success || status == L.Failed {
        Skip(item);
        PathOf1(s0, L.Skip(id), at);
        return;
      }
      var req := Read(item);
      ghost var s1 := at;

      // 2. a key from the pool
      if world.keyFound {
        Execute(item, req, world);
        StepThen(s0, L.Load(id), s1, [L.GotKey(id)] + KeyedSteps(world), at);
      } else {
        RequeueWithDelay(item, req.attempts);
        PathOf2(s0, L.Load(id), s1, L.NoKey(id), at);
      }
    }
  }

  lemma {:induction false} StepThen(s: L.State, step: L.Step, m: L.State, steps: seq<L.Step>, t: L.State)
    requires Moves(s, step, m) && Path(m, steps, t)
    ensures Path(s, [step] + steps, t)
  {
    assert ([step] + steps)[1..] == steps;
  }

  lemma {:induction false} PathOf1(s: L.State, a: L.Step, t: L.State)
    requires Moves(s, a, t)
    ensures Path(s, [a], t)
  {
    PathThen(s, [], s, a, t);
    assert [] + [a] == [a];
  }

  lemma {:induction false} PathOf2(s: L.State, a: L.Step, m: L.State, b: L.Step, t: L.State)
    requires Moves(s, a, m) && Moves(m, b, t)
    ensures Path(s, [a, b], t)
  {
    PathOf1(s, a, m);
    PathThen(s, [a], m, b, t);
    assert [a] + [b] == [a, b];
  }

  /** x is the only item that ever entered, and a worker has received it. */
  ghost predicate Received(s: L.State, x: Item) {
    && |s.workers| > 0 && s.workers[0] == L.Loading(x)
    && x.RequestID in s.db && s.db[x.RequestID] == L.Record(L.Pending, 0, 0, [])
  }

  lemma {:induction false} Accept(s0: L.State, x: Item) returns (s1: L.State, s2: L.State)
    requires L.Init(s0) && 0 < |s0.workers| && 1 <= s0.queue.maxSize
    ensures Moves(s0, L.Submit(x), s1) && Moves(s1, L.Offer(x, false, L.Q.Accepted), s2)
    ensures s2.queue.heap == multiset{x} && s2.queue.pc.Parked? && s2.queue.lock.ByEnqueue?
    ensures s2.workers == s0.workers
    ensures x.RequestID in s2.db && s2.db[x.RequestID] == L.Record(L.Pending, 0, 0, [])
  {
    s1 := L.Apply(s0, L.Submit(x));
    s2 := L.Apply(s1, L.Offer(x, false, L.Q.Accepted));
  }

  lemma {:induction false} Dispatch(s2: L.State, x: Item) returns (s3: L.State, s4: L.State, s5: L.State, s6: L.State)
    requires s2.queue.heap == multiset{x} && s2.queue.pc.Parked? && s2.queue.lock.ByEnqueue?
    requires 0 < |s2.workers| && s2.workers[0].Idle?
    requires x.RequestID in s2.db && s2.db[x.RequestID] == L.Record(L.Pending, 0, 0, [])
    ensures Moves(s2, L.Internal(L.D.Notify), s3) && Moves(s3, L.Internal(L.D.Wake), s4)
    ensures Moves(s4, L.Internal(L.D.Pop(x)), s5) && Moves(s5, L.Take(0, L.D.Deliver, x), s6)
    ensures Received(s6, x)
  {
    s3 := L.Apply(s2, L.Internal(L.D.Notify));
    s4 := L.Apply(s3, L.Internal(L.D.Wake));
    s5 := L.Apply(s4, L.Internal(L.D.Pop(x)));
    s6 := L.Apply(s5, L.Take(0, L.D.Deliver, x));
  }

  /** A worker is about to call for x, for the first time. */
  ghost predicate CallsFirst(s: L.State, x: Item) {
    && |s.workers| > 0 && s.workers[0] == L.Keyed(x, 0)
    && x.RequestID in s.db && s.db[x.RequestID] == L.Record(L.Processing, 1, 0, [])
  }

  lemma {:induction false} Prepare(s6: L.State, x: Item) returns (s7: L.State, s8: L.State)
    requires Received(s6, x)
    ensures Moves(s6, L.Load(0), s7) && Moves(s7, L.GotKey(0), s8) && CallsFirst(s8, x)
  {
    s7 := L.Apply(s6, L.Load(0));
    s8 := L.Apply(s7, L.GotKey(0));
  }

  lemma {:induction false} Serve(s8: L.State, x: Item, unit: real) returns (s9: L.State, end: L.State)
    requires CallsFirst(s8, x) && B.Jitter(unit)
    ensures Moves(s8, L.Call(0), s9) && Moves(s9, L.Finish(0, L.Code(200), unit), end)
    ensures x in end.finished && x.RequestID in end.db && end.db[x.RequestID] == L.Record(L.Success, 1, 1, [])
  {
    s9 := L.Apply(s8, L.Call(0));
    end := L.Apply(s9, L.Finish(0, L.Code(200), unit));
  }

  /** The straight way of a request, from its submission to success, is a run: every one of its steps is possible. */
  lemma {:induction false} RequestCanSucceed(s0: L.State, x: Item, unit: real)
    returns (steps: seq<L.Step>, end: L.State)
    requires L.Init(s0) && 0 < |s0.workers| && 1 <= s0.queue.maxSize && B.Jitter(unit)
    ensures Path(s0, steps, end) && steps != [] && steps[0] == L.Submit(x)
    ensures x in end.finished && x.RequestID in end.db && end.db[x.RequestID] == L.Record(L.Success, 1, 1, [])
  {
    var s1, s2 := Accept(s0, x);
    var s3, s4, s5, s6 := Dispatch(s2, x);
    var s7, s8 := Prepare(s6, x);
    var s9;
    s9, end := Serve(s8, x, unit);
    steps := [L.Submit(x), L.Offer(x, false, L.Q.Accepted)];
    PathOf2(s0, L.Submit(x), s1, L.Offer(x, false, L.Q.Accepted), s2);
    PathThen(s0, steps, s2, L.Internal(L.D.Notify), s3);
    steps := steps + [L.Internal(L.D.Notify)];
    PathThen(s0, steps, s3, L.Internal(L.D.Wake), s4);
    steps := steps + [L.Internal(L.D.Wake)];
    PathThen(s0, steps, s4, L.Internal(L.D.Pop(x)), s5);
    steps := steps + [L.Internal(L.D.Pop(x))];
    PathThen(s0, steps, s5, L.Take(0, L.D.Deliver, x), s6);
    steps := steps + [L.Take(0, L.D.Deliver, x)];
    PathThen(s0, steps, s6, L.Load(0), s7);
    steps := steps + [L.Load(0)];
    PathThen(s0, steps, s7, L.GotKey(0), s8);
    steps := steps + [L.GotKey(0)];
    PathThen(s0, steps, s8, L.Call(0), s9);
    steps := steps + [L.Call(0)];
    PathThen(s0, steps, s9, L.Finish(0, L.Code(200), unit), end);
    steps := steps + [L.Finish(0, L.Code(200), unit)];
  }
}
