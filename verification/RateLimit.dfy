/**
 The two fixed windows of a key's rate limiter (internal/keypool/types.go, TryRateLimit) and
 what they bound over any sliding interval. Times are nanoseconds.
 */
module RateLimits {
  import opened Arithmetic
  import opened Wrappers

  const MINUTE: nat := 60_000_000_000
  const DAY: nat := 24 * 60 * MINUTE

  datatype Limiter = Limiter(minuteCounter: nat, dayCounter: nat, minuteResetAt: int, dayResetAt: int)

  datatype Limits = Limits(perMinute: int, perDay: int)

  /** A key that has never been asked: zero counters and zero times. */
  const FRESH := Limiter(0, 0, 0, 0)

  /** The part of TryRateLimit that reopens expired windows. */
  function Refresh(l: Limiter, now: int): Limiter {
    var m := if now > l.minuteResetAt then l.(minuteCounter := 0, minuteResetAt := now + MINUTE) else l;
    if now > m.dayResetAt then m.(dayCounter := 0, dayResetAt := now + DAY) else m
  }

  predicate Grants(l: Limiter, limits: Limits, now: int) {
    var r := Refresh(l, now);
    r.minuteCounter < limits.perMinute && r.dayCounter < limits.perDay
  }

  /** The limiter after TryRateLimit at `now`. */
  function After(l: Limiter, limits: Limits, now: int): Limiter {
    var r := Refresh(l, now);
    if Grants(l, limits, now) then r.(minuteCounter := r.minuteCounter + 1, dayCounter := r.dayCounter + 1) else r
  }

  // ----- one window with an arbitrary second gate -----

  /** The half of the limiter that one window is: its counter and when it expires. */
  datatype Window = Window(counter: nat, resetAt: int)

  /** A call at a time, and whether the other window would let it through. */
  datatype Call = Call(at: int, gate: bool)

  function Reopened(w: Window, len: nat, at: int): Window {
    if at > w.resetAt then Window(0, at + len) else w
  }

  predicate Passes(w: Window, len: nat, limit: int, c: Call) {
    Reopened(w, len, c.at).counter < limit && c.gate
  }

  function Next(w: Window, len: nat, limit: int, c: Call): Window {
    var r := Reopened(w, len, c.at);
    if Passes(w, len, limit, c) then r.(counter := r.counter + 1) else r
  }

  /** The calls granted in the closed interval [lo, hi]. */
  function Granted(w: Window, len: nat, limit: int, calls: seq<Call>, lo: int, hi: int): nat
    decreases |calls|
  {
    if calls == [] then 0
    else
      var c := calls[0];
      (if Passes(w, len, limit, c) && lo <= c.at <= hi then 1 else 0)
      + Granted(Next(w, len, limit, c), len, limit, calls[1..], lo, hi)
  }

  ghost predicate Monotone(calls: seq<Call>) {
    forall i, j :: 0 <= i < j < |calls| ==> calls[i].at <= calls[j].at
  }

  /** How many windows can open at or after x, and no later than `hi`: each lasts len, and the next opens after it. */
  function Openings(x: int, hi: int, len: nat): nat
    decreases hi - x
  {
    if hi < x then 0 else 1 + Openings(x + len + 1, hi, len)
  }

  function CeilDiv(d: int, m: nat): int
    requires 0 < m
  {
    (d + m - 1) / m
  }

  lemma {:induction false} OpeningsLater(x: int, y: int, hi: int, len: nat)
    requires x <= y
    ensures Openings(y, hi, len) <= Openings(x, hi, len)
    decreases hi - x
  {
    if y <= hi {
      OpeningsLater(x + len + 1, y + len + 1, hi, len);
    }
  }

  lemma CeilDivStep(d: int, m: nat)
    requires 0 < m
    ensures CeilDiv(d + m, m) == CeilDiv(d, m) + 1
  {
    AddDivisor(d + m - 1, m);
  }

  lemma CeilDivMonotone(d: int, e: int, m: nat)
    requires 0 < m && d <= e
    ensures CeilDiv(d, m) <= CeilDiv(e, m)
  {
    DivMonotone(d + m - 1, e + m - 1, m);
  }

  lemma {:induction false} OpeningsBound(x: int, hi: int, len: nat)
    requires 0 < len && x <= hi + 1
    ensures Openings(x, hi, len) <= CeilDiv(hi - x + 1, len)
    decreases hi - x
  {
    if x <= hi {
      CeilDivStep(hi - x + 1 - len, len);
      if x + len <= hi {
        OpeningsBound(x + len + 1, hi, len);
        CeilDivMonotone(hi - x - len, hi - x + 1 - len, len);
      } else {
        CeilDivMonotone(1, hi - x + 1, len);
        assert CeilDiv(1, len) == 1;
      }
    }
  }

  function Cap(limit: int): nat {
    Max(limit, 0)
  }

  lemma Times(n: nat, x: nat, y: nat)
    requires x <= y
    ensures n * x <= n * y
  {
  }

  lemma OneMore(n: nat, x: nat)
    ensures n * (1 + x) == n + n * x
  {
  }

  /**
   From a state whose window is open until resetAt, the grants up to `hi` are what the open
   window still has, plus a full limit for each window that can open later.
   */
  lemma {:induction false} GrantsLeft(w: Window, len: nat, limit: int, calls: seq<Call>, lo: int, hi: int, t: int)
    requires Monotone(calls) && forall i :: 0 <= i < |calls| ==> t <= calls[i].at
    ensures Granted(w, len, limit, calls, lo, hi)
         <= Max(0, Cap(limit) - w.counter) + Cap(limit) * Openings(Max(w.resetAt + 1, t), hi, len)
    decreases |calls|
  {
    if calls != [] {
      var c, next, x := calls[0], Next(w, len, limit, calls[0]), Max(w.resetAt + 1, t);
      GrantsLeft(next, len, limit, calls[1..], lo, hi, c.at);
      var y := Max(next.resetAt + 1, c.at);
      if c.at > w.resetAt {
        if c.at <= hi {
          assert y == c.at + len + 1;
          OneMore(Cap(limit), Openings(y, hi, len));
          OpeningsLater(x, c.at, hi, len);
          Times(Cap(limit), Openings(c.at, hi, len), Openings(x, hi, len));
        } else {
          GrantsNone(w, len, limit, calls, lo, hi);
        }
      } else {
        OpeningsLater(x, y, hi, len);
        Times(Cap(limit), Openings(y, hi, len), Openings(x, hi, len));
      }
    }
  }

  lemma {:induction false} GrantsNone(w: Window, len: nat, limit: int, calls: seq<Call>, lo: int, hi: int)
    requires forall i :: 0 <= i < |calls| ==> hi < calls[i].at
    ensures Granted(w, len, limit, calls, lo, hi) == 0
    decreases |calls|
  {
    if calls != [] {
      GrantsNone(Next(w, len, limit, calls[0]), len, limit, calls[1..], lo, hi);
    }
  }

  /** Once the calls have reached the interval: at most one window already open, and those that open in it. */
  lemma {:induction false} GrantsInside(w: Window, len: nat, limit: int, calls: seq<Call>, lo: int, hi: int)
    requires 0 < len && lo <= hi && Monotone(calls)
    requires forall i :: 0 <= i < |calls| ==> lo <= calls[i].at
    ensures Granted(w, len, limit, calls, lo, hi) <= Cap(limit) * (CeilDiv(hi - lo, len) + 1)
  {
    var cap, d := Cap(limit), hi - lo;
    CeilDivMonotone(0, d, len);
    assert CeilDiv(0, len) == 0;
    OneMore(cap, CeilDiv(d, len));
    if w.resetAt < lo {
      // the open window has expired: the first opening is at `lo` or later
      GrantsLeft(Window(cap, w.resetAt), len, limit, calls, lo, hi, lo);
      GrantsLeft(w, len, limit, calls, lo, hi, lo);
      ExpiredCounter(w, Window(cap, w.resetAt), len, limit, calls, lo, hi);
      CeilDivMonotone(d - len, d, len);
      CeilDivStep(d - len, len);
      if lo + len <= hi {
        OpeningsBound(lo + len + 1, hi, len);
      }
      Times(cap, Openings(lo, hi, len), CeilDiv(d, len) + 1);
    } else {
      GrantsLeft(w, len, limit, calls, lo, hi, lo);
      OpeningsLater(lo + 1, w.resetAt + 1, hi, len);
      OpeningsBound(lo + 1, hi, len);
      Times(cap, Openings(w.resetAt + 1, hi, len), CeilDiv(d, len));
    }
  }

  /** The counter of an expired window is forgotten. */
  lemma {:induction false} ExpiredCounter(w: Window, v: Window, len: nat, limit: int, calls: seq<Call>, lo: int,
          hi: int)
    requires w.resetAt == v.resetAt
    requires forall i :: 0 <= i < |calls| ==> w.resetAt < calls[i].at
    ensures Granted(w, len, limit, calls, lo, hi) == Granted(v, len, limit, calls, lo, hi)
  {
  }

  /**
   Sliding bound of one window: in any monotone run every closed interval of length d holds at
   most limit * (ceil(d / len) + 1) grants, whatever the other window does.
   */
  lemma {:induction false} SlidingBound(w: Window, len: nat, limit: int, calls: seq<Call>, lo: int, hi: int)
    requires 0 < len && lo <= hi && Monotone(calls)
    ensures Granted(w, len, limit, calls, lo, hi) <= Cap(limit) * (CeilDiv(hi - lo, len) + 1)
    decreases |calls|
  {
    if calls != [] && calls[0].at < lo {
      SlidingBound(Next(w, len, limit, calls[0]), len, limit, calls[1..], lo, hi);
    } else {
      GrantsInside(w, len, limit, calls, lo, hi);
    }
  }

  // ----- both windows at once -----

  /** The grants of a run of TryRateLimit calls at the given times that fall in [lo, hi]. */
  function GrantedBoth(l: Limiter, limits: Limits, times: seq<int>, lo: int, hi: int): nat
    decreases |times|
  {
    if times == [] then 0
    else
      (if Grants(l, limits, times[0]) && lo <= times[0] <= hi then 1 else 0)
      + GrantedBoth(After(l, limits, times[0]), limits, times[1..], lo, hi)
  }

  /** The run as the minute window sees it: the day window is its gate. */
  function MinuteCalls(l: Limiter, limits: Limits, times: seq<int>): (calls: seq<Call>)
    ensures |calls| == |times| && forall i :: 0 <= i < |times| ==> calls[i].at == times[i]
    decreases |times|
  {
    if times == [] then []
    else
      [Call(times[0], Refresh(l, times[0]).dayCounter < limits.perDay)]
      + MinuteCalls(After(l, limits, times[0]), limits, times[1..])
  }

  function DayCalls(l: Limiter, limits: Limits, times: seq<int>): (calls: seq<Call>)
    ensures |calls| == |times| && forall i :: 0 <= i < |times| ==> calls[i].at == times[i]
    decreases |times|
  {
    if times == [] then []
    else
      [Call(times[0], Refresh(l, times[0]).minuteCounter < limits.perMinute)]
      + DayCalls(After(l, limits, times[0]), limits, times[1..])
  }

  lemma {:induction false} MinuteView(l: Limiter, limits: Limits, times: seq<int>, lo: int, hi: int)
    ensures GrantedBoth(l, limits, times, lo, hi)
         == Granted(Window(l.minuteCounter, l.minuteResetAt), MINUTE, limits.perMinute,
                    MinuteCalls(l, limits, times), lo, hi)
    decreases |times|
  {
    if times != [] {
      var next, calls := After(l, limits, times[0]), MinuteCalls(l, limits, times);
      MinuteView(next, limits, times[1..], lo, hi);
      assert calls[1..] == MinuteCalls(next, limits, times[1..]);
    }
  }

  lemma {:induction false} DayView(l: Limiter, limits: Limits, times: seq<int>, lo: int, hi: int)
    ensures GrantedBoth(l, limits, times, lo, hi)
         == Granted(Window(l.dayCounter, l.dayResetAt), DAY, limits.perDay, DayCalls(l, limits, times), lo, hi)
    decreases |times|
  {
    if times != [] {
      var next, calls := After(l, limits, times[0]), DayCalls(l, limits, times);
      DayView(next, limits, times[1..], lo, hi);
      assert calls[1..] == DayCalls(next, limits, times[1..]);
    }
  }

  /**
   The sliding bound of the limiter, from any state, over any run of calls on a clock that does
   not run backwards: both windows hold at the same time on every closed interval.
   */
  lemma {:induction false} LimiterSlidingBound(l: Limiter, limits: Limits, times: seq<int>, lo: int, hi: int)
    requires lo <= hi
    requires forall i, j :: 0 <= i < j < |times| ==> times[i] <= times[j]
    ensures GrantedBoth(l, limits, times, lo, hi) <= Cap(limits.perMinute) * (CeilDiv(hi - lo, MINUTE) + 1)
    ensures GrantedBoth(l, limits, times, lo, hi) <= Cap(limits.perDay) * (CeilDiv(hi - lo, DAY) + 1)
  {
    MinuteView(l, limits, times, lo, hi);
    var minute, calls := Window(l.minuteCounter, l.minuteResetAt), MinuteCalls(l, limits, times);
    SlidingBound(minute, MINUTE, limits.perMinute, calls, lo, hi);
    DayView(l, limits, times, lo, hi);
    SlidingBound(Window(l.dayCounter, l.dayResetAt), DAY, limits.perDay, DayCalls(l, limits, times), lo, hi);
  }

  /** Any day, in nanoseconds, holds at most twice the per-day limit. */
  lemma {:induction false} AtMostDoubleInADay(l: Limiter, limits: Limits, times: seq<int>, lo: int)
    requires forall i, j :: 0 <= i < j < |times| ==> times[i] <= times[j]
    ensures GrantedBoth(l, limits, times, lo, lo + 86_400_000_000_000) <= 2 * Cap(limits.perDay)
  {
    LimiterSlidingBound(l, limits, times, lo, lo + DAY);
    assert CeilDiv(DAY, DAY) == 1;
  }

  /** Any minute, in nanoseconds, holds at most twice the per-minute limit. */
  lemma {:induction false} AtMostDoubleInAMinute(l: Limiter, limits: Limits, times: seq<int>, lo: int)
    requires forall i, j :: 0 <= i < j < |times| ==> times[i] <= times[j]
    ensures GrantedBoth(l, limits, times, lo, lo + 60_000_000_000) <= 2 * Cap(limits.perMinute)
  {
    LimiterSlidingBound(l, limits, times, lo, lo + MINUTE);
    assert CeilDiv(MINUTE, MINUTE) == 1;
  }

  // ----- runs that grant many calls in a minute -----

  /** The grants in the minute from lo, in a run of a new key. */
  function GrantedInMinute(limits: Limits, times: seq<int>, lo: int): nat {
    GrantedBoth(FRESH, limits, times, lo, lo + MINUTE)
  }

  /** Calls that start no earlier than `from` and never run backwards. */
  ghost predicate Forward(from: int, times: seq<int>) {
    && (forall i :: 0 <= i < |times| ==> from <= times[i])
    && (forall i, j :: 0 <= i < j < |times| ==> times[i] <= times[j])
  }

  /** k calls at the same time. */
  function Repeat(at: int, k: nat): (times: seq<int>)
    ensures |times| == k
  {
    seq(k, _ => at)
  }

  lemma {:induction false} RepeatFirst(at: int, k: nat, rest: seq<int>)
    requires 0 < k
    ensures Repeat(at, k) + rest == [at] + (Repeat(at, k - 1) + rest)
  {
  }

  lemma {:induction false} ForwardRepeat(from: int, at: int, k: nat, rest: seq<int>)
    requires from <= at && Forward(at, rest)
    ensures Forward(from, Repeat(at, k) + rest)
  {
  }

  lemma {:induction false} FirstCall(l: Limiter, limits: Limits, at: int, rest: seq<int>, lo: int, hi: int)
    ensures GrantedBoth(l, limits, [at] + rest, lo, hi)
         == (if Grants(l, limits, at) && lo <= at <= hi then 1 else 0)
            + GrantedBoth(After(l, limits, at), limits, rest, lo, hi)
  {
    assert ([at] + rest)[1..] == rest;
  }

  /** How many of k calls at once are granted, by a limiter whose windows are open. */
  function Room(r: Limiter, limits: Limits, k: nat): nat {
    Least(k, Least(Cap(limits.perMinute - r.minuteCounter), Cap(limits.perDay - r.dayCounter)))
  }

  /** The limiter after k > 0 calls at `at`. */
  function AfterBurst(l: Limiter, limits: Limits, at: int, k: nat): Limiter {
    var r := Refresh(l, at);
    r.(minuteCounter := r.minuteCounter + Room(r, limits, k), dayCounter := r.dayCounter + Room(r, limits, k))
  }

  lemma {:induction false} OneOfBurst(l: Limiter, limits: Limits, at: int, k: nat)
    requires 1 < k
    ensures AfterBurst(After(l, limits, at), limits, at, k - 1) == AfterBurst(l, limits, at, k)
    ensures Room(Refresh(l, at), limits, k)
         == (if Grants(l, limits, at) then 1 else 0) + Room(Refresh(After(l, limits, at), at), limits, k - 1)
  {
  }

  /** k calls at once are granted as far as both windows have room. */
  lemma {:induction false} Burst(l: Limiter, limits: Limits, at: int, k: nat, rest: seq<int>, lo: int, hi: int)
    requires 0 < k
    ensures GrantedBoth(l, limits, Repeat(at, k) + rest, lo, hi)
         == (if lo <= at <= hi then Room(Refresh(l, at), limits, k) else 0)
            + GrantedBoth(AfterBurst(l, limits, at, k), limits, rest, lo, hi)
    decreases k
  {
    RepeatFirst(at, k, rest);
    FirstCall(l, limits, at, Repeat(at, k - 1) + rest, lo, hi);
    if k == 1 {
      assert Repeat(at, 0) + rest == rest;
    } else {
      OneOfBurst(l, limits, at, k);
      Burst(After(l, limits, at), limits, at, k - 1, rest, lo, hi);
    }
  }

  lemma NoCalls(l: Limiter, limits: Limits, lo: int, hi: int)
    ensures GrantedBoth(l, limits, [], lo, hi) == 0
  {
  }

  /** A grant, the rest of the minute's limit at the end of its window, and a full limit right after it. */
  function EdgeCalls(k: nat): seq<int>
    requires 2 <= k
  {
    Repeat(1, 1) + (Repeat(MINUTE + 1, k - 1) + (Repeat(MINUTE + 2, k) + []))
  }

  /**
   The limit itself does not hold on every minute: for every limit k >= 2 that the day limit leaves
   room for twice, a new key grants 2k - 1 calls within a nanosecond.
   */
  lemma {:induction false} WindowEdgeBurst(limits: Limits)
    requires 2 <= limits.perMinute && 2 * limits.perMinute <= limits.perDay
    ensures Forward(1, EdgeCalls(limits.perMinute))
    ensures GrantedBoth(FRESH, limits, EdgeCalls(limits.perMinute), MINUTE + 1, MINUTE + 2) == 2 * limits.perMinute - 1
  {
    var k, lo, hi := limits.perMinute, MINUTE + 1, MINUTE + 2;
    ForwardRepeat(lo, hi, k, []);
    ForwardRepeat(1, lo, k - 1, Repeat(hi, k) + []);
    ForwardRepeat(1, 1, 1, Repeat(lo, k - 1) + (Repeat(hi, k) + []));
    var l1 := AfterBurst(FRESH, limits, 1, 1);
    var l2 := AfterBurst(l1, limits, lo, k - 1);
    Burst(FRESH, limits, 1, 1, Repeat(lo, k - 1) + (Repeat(hi, k) + []), lo, hi);
    Burst(l1, limits, lo, k - 1, Repeat(hi, k) + [], lo, hi);
    Burst(l2, limits, hi, k, [], lo, hi);
    NoCalls(AfterBurst(l2, limits, hi, k), limits, lo, hi);
  }

  // A day window opens with the first call; its last minute is used up to the edge and beyond.

  /** Two grants long before, then calls at the end of the day's window and right after it. */
  function DayEdgeCalls(x: nat, y: nat): seq<int> {
    Repeat(1, 1) + (Repeat(DAY - MINUTE + 2, 1) + (Repeat(DAY + 1, x) + (Repeat(DAY + 3, y) + [])))
  }

  lemma {:induction false} DayEdgeForward(x: nat, y: nat)
    ensures Forward(1, DayEdgeCalls(x, y))
  {
    ForwardRepeat(DAY + 1, DAY + 3, y, []);
    ForwardRepeat(DAY - MINUTE + 2, DAY + 1, x, Repeat(DAY + 3, y) + []);
    ForwardRepeat(1, DAY - MINUTE + 2, 1, Repeat(DAY + 1, x) + (Repeat(DAY + 3, y) + []));
    ForwardRepeat(1, 1, 1, Repeat(DAY - MINUTE + 2, 1) + (Repeat(DAY + 1, x) + (Repeat(DAY + 3, y) + [])));
  }

  lemma {:induction false} DayEdgeBurst(limits: Limits, x: nat, y: nat)
    requires 0 < x && 0 < y && x + 1 <= limits.perMinute && x + 2 <= limits.perDay
    requires y <= limits.perMinute && y <= limits.perDay
    ensures GrantedBoth(FRESH, limits, DayEdgeCalls(x, y), DAY - MINUTE + 3, DAY + 3) == x + y
  {
    var lo, hi := DAY - MINUTE + 3, DAY + 3;
    var l1 := AfterBurst(FRESH, limits, 1, 1);
    var l2 := AfterBurst(l1, limits, lo - 1, 1);
    var l3 := AfterBurst(l2, limits, DAY + 1, x);
    Burst(FRESH, limits, 1, 1, Repeat(lo - 1, 1) + (Repeat(DAY + 1, x) + (Repeat(hi, y) + [])), lo, hi);
    Burst(l1, limits, lo - 1, 1, Repeat(DAY + 1, x) + (Repeat(hi, y) + []), lo, hi);
    Burst(l2, limits, DAY + 1, x, Repeat(hi, y) + [], lo, hi);
    Burst(l3, limits, hi, y, [], lo, hi);
    NoCalls(AfterBurst(l3, limits, hi, y), limits, lo, hi);
  }

  // A second day's window opens in the middle of a minute, and is then used up minute by minute.

  /** When the second day's window opens, the moment a minute's window is about to expire. */
  const SECOND: nat := DAY + 2

  /** The start of a later minute's window. */
  function WindowAt(j: nat): nat {
    SECOND + 1 + j * (MINUTE + 1)
  }

  /** Bursts of k calls, one at the start of each window from number j up to number n. */
  function FillCalls(k: nat, j: nat, n: nat, rest: seq<int>): seq<int>
    requires j <= n
    decreases n - j
  {
    if j == n then rest else Repeat(WindowAt(j), k) + FillCalls(k, j + 1, n, rest)
  }

  lemma {:induction false} FillForward(k: nat, j: nat, n: nat, rest: seq<int>)
    requires j <= n && Forward(WindowAt(n), rest)
    ensures Forward(WindowAt(j), FillCalls(k, j, n, rest))
    decreases n - j
  {
    if j < n {
      FillForward(k, j + 1, n, rest);
      ForwardLater(WindowAt(j), WindowAt(j + 1), FillCalls(k, j + 1, n, rest));
      ForwardRepeat(WindowAt(j), WindowAt(j), k, FillCalls(k, j + 1, n, rest));
    }
  }

  lemma {:induction false} ForwardLater(from: int, later: int, times: seq<int>)
    requires from <= later && Forward(later, times)
    ensures Forward(from, times)
  {
  }

  /**
   The day's counter before window number n: one call less than a minute's limit, and n limits, but
   never more than the day's.
   */
  function Filled(limits: Limits, n: nat): nat
    requires 0 < limits.perMinute <= limits.perDay
  {
    if n == 0 then limits.perMinute - 1 else Least(limits.perDay, Filled(limits, n - 1) + limits.perMinute)
  }

  lemma {:induction false} FilledMeans(limits: Limits, n: nat)
    requires 0 < limits.perMinute <= limits.perDay
    ensures Filled(limits, n) == Least(limits.perDay, limits.perMinute - 1 + n * limits.perMinute)
  {
    if n != 0 {
      FilledMeans(limits, n - 1);
      assert n * limits.perMinute == (n - 1) * limits.perMinute + limits.perMinute;
    }
  }

  /** The second day's window is open, and the last minute's window expires just before window number j. */
  ghost predicate Filling(l: Limiter, limits: Limits, j: nat)
    requires 0 < limits.perMinute <= limits.perDay
  {
    l.dayResetAt == SECOND + DAY && l.minuteResetAt == WindowAt(j) - 1 && l.dayCounter == Filled(limits, j)
  }

  /** A burst fills its minute, or what is left of the day. */
  lemma {:induction false} FillStep(l: Limiter, limits: Limits, j: nat)
    requires 0 < limits.perMinute <= limits.perDay && j < 1439 && Filling(l, limits, j)
    ensures Filling(AfterBurst(l, limits, WindowAt(j), limits.perMinute), limits, j + 1)
  {
    assert j * (MINUTE + 1) < DAY;
    assert 0 <= Filled(limits, j) <= limits.perDay;
  }

  lemma {:induction false} Fill(l: Limiter, limits: Limits, j: nat, n: nat, rest: seq<int>, lo: int, hi: int)
    returns (full: Limiter)
    requires 0 < limits.perMinute <= limits.perDay && j <= n <= 1439 && Filling(l, limits, j)
    requires SECOND + DAY < lo
    ensures Filling(full, limits, n)
    ensures GrantedBoth(l, limits, FillCalls(limits.perMinute, j, n, rest), lo, hi)
      == GrantedBoth(full, limits, rest, lo, hi)
    decreases n - j
  {
    if j == n {
      full := l;
    } else {
      var k := limits.perMinute;
      FillStep(l, limits, j);
      Burst(l, limits, WindowAt(j), k, FillCalls(k, j + 1, n, rest), lo, hi);
      full := Fill(AfterBurst(l, limits, WindowAt(j), k), limits, j + 1, n, rest, lo, hi);
    }
  }

  /**
   A refused call that opens a minute at the end of the second day's window, and twice a full minute's
   limit after it.
   */
  function DoubleEnd(k: nat): seq<int> {
    Repeat(SECOND + DAY, 1) + (Repeat(SECOND + DAY + 1, k) + (Repeat(SECOND + DAY + 1 + MINUTE, k) + []))
  }

  /** One call opens the first day, one a minute across its end, and the second day is used up. */
  function DoubleCalls(k: nat): seq<int> {
    Repeat(1, 1) + (Repeat(SECOND - MINUTE, 1) + (Repeat(SECOND, k) + FillCalls(k, 0, 1439, DoubleEnd(k))))
  }

  lemma {:induction false} DoubleForward(k: nat)
    ensures Forward(1, DoubleCalls(k))
  {
    var at := SECOND + DAY;
    ForwardRepeat(at + 1, at + 1 + MINUTE, k, []);
    ForwardRepeat(at, at + 1, k, Repeat(at + 1 + MINUTE, k) + []);
    ForwardRepeat(WindowAt(1439), at, 1, Repeat(at + 1, k) + (Repeat(at + 1 + MINUTE, k) + []));
    FillForward(k, 0, 1439, DoubleEnd(k));
    var fill := FillCalls(k, 0, 1439, DoubleEnd(k));
    ForwardLater(SECOND, WindowAt(0), fill);
    ForwardRepeat(SECOND - MINUTE, SECOND, k, fill);
    ForwardRepeat(1, SECOND - MINUTE, 1, Repeat(SECOND, k) + fill);
    ForwardRepeat(1, 1, 1, Repeat(SECOND - MINUTE, 1) + (Repeat(SECOND, k) + fill));
  }

  /** The calls before the fill, on a new key. */
  lemma {:induction false} DoubleStart(limits: Limits, rest: seq<int>, lo: int, hi: int) returns (l: Limiter)
    requires 1 <= limits.perMinute && 2 <= limits.perDay && limits.perMinute <= limits.perDay && SECOND < lo
    ensures Filling(l, limits, 0)
    ensures
      var before := Repeat(1, 1) + (Repeat(SECOND - MINUTE, 1) + (Repeat(SECOND, limits.perMinute) + rest));
      GrantedBoth(FRESH, limits, before, lo, hi)
         == GrantedBoth(l, limits, rest, lo, hi)
  {
    var k := limits.perMinute;
    var l1 := AfterBurst(FRESH, limits, 1, 1);
    var l2 := AfterBurst(l1, limits, SECOND - MINUTE, 1);
    l := AfterBurst(l2, limits, SECOND, k);
    Burst(FRESH, limits, 1, 1, Repeat(SECOND - MINUTE, 1) + (Repeat(SECOND, k) + rest), lo, hi);
    Burst(l1, limits, SECOND - MINUTE, 1, Repeat(SECOND, k) + rest, lo, hi);
    Burst(l2, limits, SECOND, k, rest, lo, hi);
  }

  /**
   The bound of twice the limit is attained, by a new key, in a minute, whenever the day limit leaves
   room for it and can be used up before the last minute of a day.
   */
  lemma {:induction false} DoubleIsAttained(limits: Limits)
    requires 1 <= limits.perMinute && 2 * limits.perMinute <= limits.perDay < 1440 * limits.perMinute
    ensures Forward(1, DoubleCalls(limits.perMinute))
    ensures GrantedInMinute(limits, DoubleCalls(limits.perMinute), SECOND + DAY + 1) == 2 * limits.perMinute
  {
    var k, lo, hi := limits.perMinute, SECOND + DAY + 1, SECOND + DAY + 1 + MINUTE;
    DoubleForward(k);
    FilledMeans(limits, 1439);
    var start := DoubleStart(limits, FillCalls(k, 0, 1439, DoubleEnd(k)), lo, hi);
    var l0 := Fill(start, limits, 0, 1439, DoubleEnd(k), lo, hi);
    var l1 := AfterBurst(l0, limits, lo - 1, 1);
    var l2 := AfterBurst(l1, limits, lo, k);
    Burst(l0, limits, lo - 1, 1, Repeat(lo, k) + (Repeat(hi, k) + []), lo, hi);
    Burst(l1, limits, lo, k, Repeat(hi, k) + [], lo, hi);
    Burst(l2, limits, hi, k, [], lo, hi);
    NoCalls(AfterBurst(l2, limits, hi, k), limits, lo, hi);
  }

  // ----- the most that a minute can hold -----

  /**
   The most grants that a closed minute can hold. A small day limit counts twice, less the calls that
   opened the windows long before; a large one leaves room for twice the minute's limit, less the call
   that opened the first window, unless that call can be one that the used-up day refuses.
   */
  function MostInAMinute(limits: Limits): nat {
    var m, d := limits.perMinute, limits.perDay;
    if m <= 0 || d <= 0 then 0
    else if 2 * d - 1 <= m then 2 * d - 1
    else if d <= m then 2 * d - 2
    else if 2 * m <= d < 1440 * m then 2 * m
    else 2 * m - 1
  }

  lemma {:induction false} AtOnce(limits: Limits, k: nat)
    requires 1 <= k <= limits.perMinute && k <= limits.perDay
    ensures Forward(1, Repeat(1, k) + []) && GrantedInMinute(limits, Repeat(1, k) + [], 1) == k
  {
    ForwardRepeat(1, 1, k, []);
    Burst(FRESH, limits, 1, k, [], 1, 1 + MINUTE);
    NoCalls(AfterBurst(FRESH, limits, 1, k), limits, 1, 1 + MINUTE);
  }

  /** What a day has left at its end and the whole next day, in one minute's window. */
  function TwoDaysCalls(d: nat): seq<int>
    requires 2 <= d
  {
    Repeat(1, 1) + (Repeat(DAY + 1, d - 1) + (Repeat(DAY + 2, d) + []))
  }

  lemma {:induction false} TwoDaysBurst(limits: Limits)
    requires 2 <= limits.perDay && 2 * limits.perDay - 1 <= limits.perMinute
    ensures Forward(1, TwoDaysCalls(limits.perDay))
    ensures GrantedInMinute(limits, TwoDaysCalls(limits.perDay), DAY + 1) == 2 * limits.perDay - 1
  {
    var d, lo, hi := limits.perDay, DAY + 1, DAY + 1 + MINUTE;
    ForwardRepeat(lo, lo + 1, d, []);
    ForwardRepeat(1, lo, d - 1, Repeat(lo + 1, d) + []);
    ForwardRepeat(1, 1, 1, Repeat(lo, d - 1) + (Repeat(lo + 1, d) + []));
    var l1 := AfterBurst(FRESH, limits, 1, 1);
    var l2 := AfterBurst(l1, limits, lo, d - 1);
    Burst(FRESH, limits, 1, 1, Repeat(lo, d - 1) + (Repeat(lo + 1, d) + []), lo, hi);
    Burst(l1, limits, lo, d - 1, Repeat(lo + 1, d) + [], lo, hi);
    Burst(l2, limits, lo + 1, d, [], lo, hi);
    NoCalls(AfterBurst(l2, limits, lo + 1, d), limits, lo, hi);
  }

  /** A run and a minute that reach the most. */
  lemma {:induction false} MostIsReached(limits: Limits) returns (times: seq<int>, lo: int)
    ensures Forward(1, times) && GrantedInMinute(limits, times, lo) == MostInAMinute(limits)
  {
    var m, d, most := limits.perMinute, limits.perDay, MostInAMinute(limits);
    if most == 0 {
      times, lo := [], 0;
    } else if most <= m && most <= d {
      AtOnce(limits, most);
      times, lo := Repeat(1, most) + [], 1;
    } else if 2 * d - 1 <= m {
      TwoDaysBurst(limits);
      times, lo := TwoDaysCalls(d), DAY + 1;
    } else if most == 2 * m {
      DoubleIsAttained(limits);
      times, lo := DoubleCalls(m), SECOND + DAY + 1;
    } else {
      var x, y := if d <= m then d - 2 else m - 1, if d <= m then d else m;
      DayEdgeForward(x, y);
      DayEdgeBurst(limits, x, y);
      times, lo := DayEdgeCalls(x, y), DAY - MINUTE + 3;
    }
  }

  /**
   An interval no longer than the window: one limit if no window is open, otherwise what is left and at
   most one limit more.
   */
  lemma {:induction false} WithinOneLength(w: Window, len: nat, limit: int, calls: seq<Call>, lo: int, hi: int)
    requires hi - lo <= len && Monotone(calls) && calls != [] && lo <= calls[0].at
    ensures w.resetAt < calls[0].at ==> Granted(w, len, limit, calls, lo, hi) <= Cap(limit)
    ensures calls[0].at <= w.resetAt ==>
      Granted(w, len, limit, calls, lo, hi) <= Max(0, Cap(limit) - w.counter)
        + (if w.resetAt < hi then Cap(limit) else 0)
  {
    var first := calls[0].at;
    if w.resetAt < first {
      var used := Window(Cap(limit), w.resetAt);
      GrantsLeft(used, len, limit, calls, lo, hi, first);
      ExpiredCounter(w, used, len, limit, calls, lo, hi);
      AtMostOne(first, hi, len);
      Times(Cap(limit), Openings(first, hi, len), 1);
    } else {
      GrantsLeft(w, len, limit, calls, lo, hi, first);
      AtMostOne(w.resetAt + 1, hi, len);
      Times(Cap(limit), Openings(w.resetAt + 1, hi, len), if w.resetAt < hi then 1 else 0);
    }
  }

  lemma AtMostOne(x: int, hi: int, len: nat)
    requires hi <= x + len
    ensures Openings(x, hi, len) == if x <= hi then 1 else 0
  {
  }

  /** The same for both windows of a limiter, on a minute that its calls have reached. */
  lemma {:induction false} WithinAMinute(l: Limiter, limits: Limits, times: seq<int>, lo: int)
    requires times != [] && Forward(lo, times)
    ensures var granted, first, hi := GrantedBoth(l, limits, times, lo, lo + MINUTE), times[0], lo + MINUTE;
      && (l.minuteResetAt < first ==> granted <= Cap(limits.perMinute))
      && (first <= l.minuteResetAt ==>
            granted <= Max(0, Cap(limits.perMinute) - l.minuteCounter)
              + (if l.minuteResetAt < hi then Cap(limits.perMinute) else 0))
      && (l.dayResetAt < first ==> granted <= Cap(limits.perDay))
      && (first <= l.dayResetAt ==>
            granted <= Max(0, Cap(limits.perDay) - l.dayCounter)
              + (if l.dayResetAt < hi then Cap(limits.perDay) else 0))
  {
    MinuteView(l, limits, times, lo, lo + MINUTE);
    var minute, day := Window(l.minuteCounter, l.minuteResetAt), Window(l.dayCounter, l.dayResetAt);
    WithinOneLength(minute, MINUTE, limits.perMinute, MinuteCalls(l, limits, times), lo, lo + MINUTE);
    DayView(l, limits, times, lo, lo + MINUTE);
    WithinOneLength(day, DAY, limits.perDay, DayCalls(l, limits, times), lo, lo + MINUTE);
  }

  /** What holds after every call, whatever the limits: the times at which the two windows opened. */
  ghost predicate OpenedBy(l: Limiter, t: int) {
    var minuteAt, dayAt := l.minuteResetAt - MINUTE, l.dayResetAt - DAY;
    minuteAt <= t && dayAt <= l.minuteResetAt && minuteAt <= l.dayResetAt
  }

  /**
   With a day limit no larger than the minute's: a minute window that opened after the day's window is
   charged with less than the day, and the day with two grants before it, or with all it has.
   */
  ghost predicate SmallDay(l: Limiter, limits: Limits) {
    && 1 <= l.dayCounter <= limits.perDay
    && (l.dayResetAt - DAY < l.minuteResetAt - MINUTE ==>
          l.minuteCounter < l.dayCounter && (2 <= l.dayCounter || l.dayCounter == limits.perDay))
  }

  /** With a larger one: the call that opened the minute was granted, or the day is used up. */
  ghost predicate OpenedOrFull(l: Limiter, limits: Limits) {
    1 <= l.minuteCounter || limits.perDay <= l.dayCounter
  }

  /** How many minute windows can have opened by `e` and expired before the current one. */
  function WindowsBy(e: nat): nat {
    e / (MINUTE + 1)
  }

  /**
   e after the day's window opened, n grants of earlier minutes: a limit for each window of the day, and
   perhaps what a window left over that was already open. Its opening call was granted the day before.
   */
  ghost predicate Counted(n: int, limit: nat, e: nat) {
    n <= limit * WindowsBy(e) || (1 <= e && n <= limit - 1 + limit * WindowsBy(e - 1))
  }

  /** With a day limit that no day can use up: the call that opened the minute was granted, and why. */
  ghost predicate LargeDay(l: Limiter, limits: Limits) {
    var e := (l.minuteResetAt - MINUTE) - (l.dayResetAt - DAY);
    && 1 <= l.minuteCounter <= limits.perMinute
    && (if e < 0 then l.dayCounter < l.minuteCounter else Counted(l.dayCounter - l.minuteCounter, limits.perMinute, e))
  }

  ghost predicate Paced(l: Limiter, limits: Limits, t: int) {
    l == FRESH ||
    (OpenedBy(l, t) &&
     if limits.perDay <= limits.perMinute then SmallDay(l, limits)
     else if limits.perDay < 1440 * limits.perMinute then OpenedOrFull(l, limits)
     else LargeDay(l, limits))
  }

  lemma {:induction false} KeepsOpenedBy(l: Limiter, limits: Limits, t: int, now: int)
    requires (l == FRESH && 1 <= now) || (OpenedBy(l, t) && t <= now)
    ensures OpenedBy(After(l, limits, now), now)
  {
  }

  lemma {:induction false} KeepsSmallDay(l: Limiter, limits: Limits, t: int, now: int)
    requires 1 <= limits.perDay <= limits.perMinute
    requires (l == FRESH && 1 <= now) || (OpenedBy(l, t) && SmallDay(l, limits) && t <= now)
    ensures SmallDay(After(l, limits, now), limits)
  {
  }

  lemma {:induction false} KeepsOpenedOrFull(l: Limiter, limits: Limits, now: int)
    requires 1 <= limits.perMinute && 1 <= limits.perDay
    requires (l == FRESH && 1 <= now) || OpenedOrFull(l, limits)
    ensures OpenedOrFull(After(l, limits, now), limits)
  {
  }

  /** One window further. */
  lemma {:induction false} CountedOn(n: int, p: nat, limit: nat, e: nat, later: nat)
    requires p <= limit && Counted(n, limit, e) && e + MINUTE + 1 <= later
    ensures Counted(n + p, limit, later)
  {
    AddDivisor(e, MINUTE + 1);
    DivMonotone(e + MINUTE + 1, later, MINUTE + 1);
    Times(limit, WindowsBy(e) + 1, WindowsBy(later));
    OneMore(limit, WindowsBy(e));
    if 1 <= e {
      AddDivisor(e - 1, MINUTE + 1);
      DivMonotone(e + MINUTE, later - 1, MINUTE + 1);
      Times(limit, WindowsBy(e - 1) + 1, WindowsBy(later - 1));
      OneMore(limit, WindowsBy(e - 1));
    }
  }

  /** The first window that opens after the day's, when that opened inside another. */
  lemma {:induction false} CountedFirst(n: nat, limit: nat, later: nat)
    requires n < limit && 1 <= later
    ensures Counted(n, limit, later)
  {
    NonNeg(limit, WindowsBy(later - 1));
  }

  /** A day has room for less than 1440 limits before its last minute's window opens. */
  lemma {:induction false} CountedInADay(n: int, limit: nat, e: nat)
    requires 1 <= limit && Counted(n, limit, e) && e <= DAY
    ensures n < 1440 * limit
  {
    Times(limit, WindowsBy(e), 1439);
    if 1 <= e {
      Times(limit, WindowsBy(e - 1), 1439);
    }
  }

  lemma {:induction false} KeepsLargeDay(l: Limiter, limits: Limits, t: int, now: int)
    requires 1 <= limits.perMinute && 1440 * limits.perMinute <= limits.perDay
    requires (l == FRESH && 1 <= now) || (OpenedBy(l, t) && LargeDay(l, limits) && t <= now)
    ensures LargeDay(After(l, limits, now), limits)
  {
    if l != FRESH && l.minuteResetAt < now <= l.dayResetAt {
      var dayAt := l.dayResetAt - DAY;
      var e := (l.minuteResetAt - MINUTE) - dayAt;
      if e < 0 {
        CountedFirst(l.dayCounter, limits.perMinute, now - dayAt);
      } else {
        CountedOn(l.dayCounter - l.minuteCounter, l.minuteCounter, limits.perMinute, e, now - dayAt);
      }
      CountedInADay(l.dayCounter, limits.perMinute, now - dayAt);
    }
  }

  lemma {:induction false} KeepsPaced(l: Limiter, limits: Limits, t: int, now: int)
    requires 1 <= limits.perMinute && 1 <= limits.perDay && Paced(l, limits, t) && t <= now && 1 <= now
    ensures Paced(After(l, limits, now), limits, now)
  {
    KeepsOpenedBy(l, limits, t, now);
    if limits.perDay <= limits.perMinute {
      KeepsSmallDay(l, limits, t, now);
    } else if limits.perDay < 1440 * limits.perMinute {
      KeepsOpenedOrFull(l, limits, now);
    } else {
      KeepsLargeDay(l, limits, t, now);
    }
  }

  /** A minute that starts after the last call holds no more than the most. */
  lemma {:induction false} PacedMinute(l: Limiter, limits: Limits, times: seq<int>, t: int, lo: int)
    requires 1 <= limits.perMinute && 1 <= limits.perDay && Paced(l, limits, t)
    requires (t < lo || l == FRESH) && times != [] && Forward(lo, times) && 1 <= times[0]
    ensures GrantedBoth(l, limits, times, lo, lo + MINUTE) <= MostInAMinute(limits)
  {
    WithinAMinute(l, limits, times, lo);
  }

  lemma {:induction false} AtMostFrom(l: Limiter, limits: Limits, times: seq<int>, t: int, lo: int)
    requires 1 <= limits.perMinute && 1 <= limits.perDay && Paced(l, limits, t)
    requires (t < lo || l == FRESH) && Forward(Max(t, 1), times)
    ensures GrantedBoth(l, limits, times, lo, lo + MINUTE) <= MostInAMinute(limits)
    decreases |times|
  {
    if times != [] {
      if times[0] < lo {
        KeepsPaced(l, limits, t, times[0]);
        AtMostFrom(After(l, limits, times[0]), limits, times[1..], times[0], lo);
      } else {
        PacedMinute(l, limits, times, t, lo);
      }
    }
  }

  /** No grants at all when a limit is not positive. */
  lemma {:induction false} NothingGranted(l: Limiter, limits: Limits, times: seq<int>, lo: int, hi: int)
    requires limits.perMinute <= 0 || limits.perDay <= 0
    ensures GrantedBoth(l, limits, times, lo, hi) == 0
    decreases |times|
  {
    if times != [] {
      NothingGranted(After(l, limits, times[0]), limits, times[1..], lo, hi);
    }
  }

  /** No minute of a run of a new key, on a clock past the zero time, holds more than the most. */
  lemma {:induction false} AtMostTheMost(limits: Limits, times: seq<int>, lo: int)
    requires Forward(1, times)
    ensures GrantedInMinute(limits, times, lo) <= MostInAMinute(limits)
  {
    if limits.perMinute <= 0 || limits.perDay <= 0 {
      NothingGranted(FRESH, limits, times, lo, lo + MINUTE);
    } else {
      AtMostFrom(FRESH, limits, times, 1, lo);
    }
  }

  /**
   The exact worst case, for all limits: over every run of a new key and every closed minute, the largest
   number of grants is MostInAMinute.
   */
  lemma {:induction false} MostIsExact(limits: Limits)
    ensures forall times: seq<int>, lo: int :: Forward(1, times) ==>
      GrantedInMinute(limits, times, lo) <= MostInAMinute(limits)
    ensures exists times: seq<int>, lo: int ::
      Forward(1, times) && GrantedInMinute(limits, times, lo) == MostInAMinute(limits)
  {
    forall times: seq<int>, lo: int | Forward(1, times)
      ensures GrantedInMinute(limits, times, lo) <= MostInAMinute(limits)
    {
      AtMostTheMost(limits, times, lo);
    }
    var reached, from := MostIsReached(limits);
  }

  /** Every minute of every run of a new key keeps the per-minute limit. */
  ghost predicate KeepsEveryMinute(limits: Limits) {
    forall times: seq<int>, lo: int :: Forward(1, times) ==> GrantedInMinute(limits, times, lo) <= Cap(limits.perMinute)
  }

  /**
   The limits for which it does: no calls at all, a day limit too small, or one a minute and a day
   limit that no day can use up.
   */
  predicate MinuteSafe(limits: Limits) {
    || limits.perMinute <= 0
    || 2 * limits.perDay <= limits.perMinute + 2
    || (limits.perMinute == 1 && 1440 <= limits.perDay)
  }

  /**
   The exact condition on the limits: every run of a new key keeps the per-minute limit in every closed
   minute if and only if it grants nothing, or the day limit is at most half the minute's plus one, or
   one call a minute is allowed and the day limit is 1440 or more, which a day cannot use up.
   */
  lemma {:induction false} MinuteLimitHoldsIff(limits: Limits)
    ensures KeepsEveryMinute(limits) <==> MinuteSafe(limits)
  {
    MostIsExact(limits);
    assert MinuteSafe(limits) <==> MostInAMinute(limits) <= Cap(limits.perMinute);
  }
}
