/**
 The circuit breaker of one key (internal/keypool/circuitbreaker.go), specified over its
 whole event history. Times are ints on the clock that the callers pass in.
 */
module CircuitBreakers {

  datatype State = Closed | Open | HalfOpen

  datatype Breaker = Breaker(state: State, failureCount: nat, lastFailedAt: int)

  datatype Settings = Settings(failureThreshold: int, openDuration: int)

  /** What can happen to a breaker: the calls of its four methods. */
  datatype Event = Asked(at: int) | Succeeded | Failed(at: int) | WasReset

  const ZERO_TIME := 0
  const FRESH := Breaker(Closed, 0, ZERO_TIME)

  // ----- the three-state machine, as coded -----

  function Allows(b: Breaker, cfg: Settings, now: int): bool {
    match b.state
    case Closed => true
    case Open => now - b.lastFailedAt >= cfg.openDuration
    case HalfOpen => true
  }

  function Step(b: Breaker, cfg: Settings, e: Event): Breaker {
    match e
    case Asked(now) =>
      if b.state.Open? && now - b.lastFailedAt >= cfg.openDuration then b.(state := HalfOpen) else b
    case Succeeded =>
      b.(state := Closed, failureCount := 0)
    case Failed(now) =>
      var failed := b.(failureCount := b.failureCount + 1, lastFailedAt := now);
      if failed.failureCount >= cfg.failureThreshold then failed.(state := Open) else failed
    case WasReset =>
      FRESH
  }

  function Replay(cfg: Settings, h: seq<Event>): Breaker {
    if h == [] then FRESH else Step(Replay(cfg, h[..|h| - 1]), cfg, h[|h| - 1])
  }

  // ----- the history function it refines -----

  /** Failures since the last success or reset; questions do not count. */
  function Trailing(h: seq<Event>): nat {
    if h == [] then 0
    else
      match h[|h| - 1]
      case Asked(_) => Trailing(h[..|h| - 1])
      case Failed(_) => Trailing(h[..|h| - 1]) + 1
      case _ => 0
  }

  function LastFailure(h: seq<Event>): int {
    if h == [] then ZERO_TIME
    else if h[|h| - 1].Failed? then h[|h| - 1].at
    else LastFailure(h[..|h| - 1])
  }

  /** The stateless rule: few enough failures in a row, or the last one is old enough. */
  predicate Admits(cfg: Settings, h: seq<Event>, now: int) {
    Trailing(h) < cfg.failureThreshold || now - LastFailure(h) >= cfg.openDuration
  }

  /** The clock has not run backwards: every question so far was asked at or before now. */
  ghost predicate Timely(h: seq<Event>, now: int) {
    forall k :: 0 <= k < |h| && h[k].Asked? ==> h[k].at <= now
  }

  /** Some question since the last failure came when that failure was old enough. */
  predicate LateAsked(cfg: Settings, h: seq<Event>) {
    h != [] &&
    match h[|h| - 1]
    case Asked(at) => at - LastFailure(h) >= cfg.openDuration || LateAsked(cfg, h[..|h| - 1])
    case _ => false
  }

  lemma {:induction false} LateAskedMeans(cfg: Settings, h: seq<Event>, now: int)
    requires Timely(h, now) && LateAsked(cfg, h)
    ensures now - LastFailure(h) >= cfg.openDuration
  {
    var last := |h| - 1;
    if h[last].at - LastFailure(h) < cfg.openDuration {
      assert forall k :: 0 <= k < last ==> h[..last][k] == h[k];
      LateAskedMeans(cfg, h[..last], now);
    }
  }

  /** What the stored state means in terms of the history, after every event. */
  ghost predicate Meaning(cfg: Settings, h: seq<Event>, b: Breaker) {
    && b.failureCount == Trailing(h)
    && (b.state.Closed? <==> Trailing(h) < cfg.failureThreshold)
    && (Trailing(h) > 0 ==> b.lastFailedAt == LastFailure(h))
    && (b.state.HalfOpen? <==> Trailing(h) >= cfg.failureThreshold && LateAsked(cfg, h))
  }

  lemma {:induction false} ReplayMeaning(cfg: Settings, h: seq<Event>)
    requires 1 <= cfg.failureThreshold
    ensures Meaning(cfg, h, Replay(cfg, h))
  {
    if h != [] {
      ReplayMeaning(cfg, h[..|h| - 1]);
    }
  }

  /**
   The exact condition, on any clock: the breaker decides by the history rule unless it is half-open
   while the last failure is too recent, which takes an earlier question from the future.
   */
  lemma {:induction false} RefinesHistoryIff(cfg: Settings, h: seq<Event>, now: int)
    requires 1 <= cfg.failureThreshold
    ensures (Allows(Replay(cfg, h), cfg, now) <==> Admits(cfg, h, now))
       <==> (Trailing(h) >= cfg.failureThreshold && LateAsked(cfg, h) ==> now - LastFailure(h) >= cfg.openDuration)
  {
    ReplayMeaning(cfg, h);
  }

  /**
   The breaker refines the history function: after any history on a clock that does not run
   backwards, a request is allowed exactly when the history rule admits it.
   */
  lemma {:induction false} BreakerRefinesHistory(cfg: Settings, h: seq<Event>, now: int)
    requires 1 <= cfg.failureThreshold && Timely(h, now)
    ensures Allows(Replay(cfg, h), cfg, now) <==> Admits(cfg, h, now)
  {
    RefinesHistoryIff(cfg, h, now);
    if LateAsked(cfg, h) {
      LateAskedMeans(cfg, h, now);
    }
  }

  /** The history without the questions. */
  function Unasked(h: seq<Event>): seq<Event> {
    if h == [] then []
    else Unasked(h[..|h| - 1]) + (if h[|h| - 1].Asked? then [] else [h[|h| - 1]])
  }

  lemma {:induction false} UnaskedSame(h: seq<Event>)
    ensures Trailing(Unasked(h)) == Trailing(h)
    ensures LastFailure(Unasked(h)) == LastFailure(h)
  {
    if h != [] {
      var last := |h| - 1;
      UnaskedSame(h[..last]);
      if h[last].Asked? {
        assert Unasked(h) == Unasked(h[..last]);
      } else {
        assert Unasked(h)[..|Unasked(h)| - 1] == Unasked(h[..last]);
      }
    }
  }

  lemma {:induction false} UnaskedTimely(h: seq<Event>, now: int)
    ensures Timely(Unasked(h), now)
  {
    if h != [] {
      UnaskedTimely(h[..|h| - 1], now);
    }
  }

  /**
   Asking is free: erasing every earlier AllowRequest from a history (such as the probes of
   keys that GetKey then does not pick) changes no decision, although asking writes state.
   */
  lemma {:induction false} AskingChangesNoDecision(cfg: Settings, h: seq<Event>, now: int)
    requires 1 <= cfg.failureThreshold && Timely(h, now)
    ensures Allows(Replay(cfg, Unasked(h)), cfg, now) == Allows(Replay(cfg, h), cfg, now)
  {
    UnaskedSame(h);
    UnaskedTimely(h, now);
    BreakerRefinesHistory(cfg, h, now);
    BreakerRefinesHistory(cfg, Unasked(h), now);
  }

  /** k failures in a row at one time. */
  function Failures(k: nat, at: int): (h: seq<Event>)
    ensures |h| == k
  {
    seq(k, _ => Failed(at))
  }

  lemma {:induction false} FailuresCount(k: nat, at: int)
    ensures Trailing(Failures(k, at)) == k
    ensures 0 < k ==> LastFailure(Failures(k, at)) == at
  {
    if k != 0 {
      FailuresCount(k - 1, at);
      assert Failures(k, at)[..k - 1] == Failures(k - 1, at);
    }
  }

  /** A fresh breaker refuses after k failures in a row exactly when they reach the threshold, and for openDuration. */
  lemma {:induction false} OpensAtThreshold(cfg: Settings, k: nat, at: int, now: int)
    requires 1 <= cfg.failureThreshold
    ensures Allows(Replay(cfg, Failures(k, at)), cfg, now) <==> k < cfg.failureThreshold || now >= at + cfg.openDuration
  {
    FailuresCount(k, at);
    assert Timely(Failures(k, at), now);
    BreakerRefinesHistory(cfg, Failures(k, at), now);
  }

  /** A success or a reset lets requests through again, whatever was before. */
  lemma {:induction false} SuccessCloses(cfg: Settings, h: seq<Event>, e: Event, now: int)
    requires 1 <= cfg.failureThreshold && (e == Succeeded || e == WasReset)
    ensures Allows(Replay(cfg, h + [e]), cfg, now)
    ensures Replay(cfg, h + [e]).failureCount == 0
  {
    assert (h + [e])[..|h|] == h;
  }

  /** A failure in half-open always reopens: the count is still at or above the threshold. */
  lemma {:induction false} HalfOpenFailureReopens(cfg: Settings, h: seq<Event>, at: int)
    requires 1 <= cfg.failureThreshold && Replay(cfg, h).state.HalfOpen?
    ensures Replay(cfg, h + [Failed(at)]).state.Open?
    ensures Replay(cfg, h + [Failed(at)]).lastFailedAt == at
  {
    ReplayMeaning(cfg, h);
    assert (h + [Failed(at)])[..|h|] == h;
  }

  /**
   The clock hypothesis is needed: one failure at 5 opens for 10, a question at 20 makes it
   half-open, and a question at 6 after the clock was set back is then let through.
   */
  lemma ClockSetBack()
    ensures var cfg, h := Settings(1, 10), [Failed(5), Asked(20)];
      Allows(Replay(cfg, h), cfg, 6) && !Admits(cfg, h, 6)
  {
    var cfg := Settings(1, 10);
    assert [Failed(5), Asked(20)][..1] == [Failed(5)] && [Failed(5)][..0] == [];
    assert Replay(cfg, [Failed(5)]) == Breaker(Open, 1, 5);
    assert LastFailure([Failed(5)]) == 5 && Trailing([Failed(5)]) == 1;
  }

  class CircuitBreaker {
    var state: State
    var failureCount: nat
    var lastFailedAt: int
    const cfg: Settings

    /** Every call so far, oldest first. */
    ghost var history: seq<Event>

    ghost predicate Valid()
      reads this
    {
      1 <= cfg.failureThreshold && View() == Replay(cfg, history)
    }

    function View(): Breaker
      reads this
    {
      Breaker(state, failureCount, lastFailedAt)
    }

    constructor (cfg: Settings)
      requires 1 <= cfg.failureThreshold
      ensures Valid() && this.cfg == cfg && history == []
    {
      this.cfg := cfg;
      state, failureCount, lastFailedAt := Closed, 0, ZERO_TIME;
      history := [];
    }

    /** Decides by the history rule, whatever state the earlier questions left behind. */
    method AllowRequest(now: int) returns (allowed: bool)
      requires Valid() && Timely(history, now)
      modifies this
      ensures Valid() && history == old(history) + [Asked(now)]
      ensures allowed <==> Admits(cfg, old(history), now)
    {
      BreakerRefinesHistory(cfg, history, now);
      assert (history + [Asked(now)])[..|history|] == history;
      match state {
        case Closed =>
          allowed := true;
        case Open =>
          if now - lastFailedAt >= cfg.openDuration {
            state := HalfOpen;
            allowed := true;
          } else {
            allowed := false;
          }
        case HalfOpen =>
          allowed := true;
      }
      history := history + [Asked(now)];
    }

    method RecordSuccess()
      requires Valid()
      modifies this
      ensures Valid() && history == old(history) + [Succeeded]
    {
      assert (history + [Succeeded])[..|history|] == history;
      failureCount := 0;
      state := Closed;
      history := history + [Succeeded];
    }

    method RecordFailure(now: int)
      requires Valid()
      modifies this
      ensures Valid() && history == old(history) + [Failed(now)]
    {
      assert (history + [Failed(now)])[..|history|] == history;
      failureCount := failureCount + 1;
      lastFailedAt := now;
      if failureCount >= cfg.failureThreshold {
        state := Open;
      }
      history := history + [Failed(now)];
    }

    method Reset()
      requires Valid()
      modifies this
      ensures Valid() && history == old(history) + [WasReset]
    {
      assert (history + [WasReset])[..|history|] == history;
      state, failureCount, lastFailedAt := Closed, 0, ZERO_TIME;
      history := history + [WasReset];
    }
  }
}
