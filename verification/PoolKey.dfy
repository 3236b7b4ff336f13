/** A key of the pool with its runtime state (internal/keypool/types.go). */
module PoolKeys {
  import opened CircuitBreakers
  import Leases
  import RateLimits

  /** What GetKey reads and writes of a key. */
  datatype Runtime = Runtime(concurrent: nat, limit: int, limiter: RateLimits.Limiter, limits: RateLimits.Limits)

  /**
   What a call of GetKey at `now` does to one key. Only the returned key gains a lease, a refused
   key has its slot back, and the limiter moves for a key that was tried and had a slot.
   */
  function Touched(r: Runtime, now: int, taken: bool, refused: bool): Runtime {
    if (taken || refused) && r.concurrent < r.limit then
      r.(concurrent := r.concurrent + (if taken then 1 else 0), limiter := RateLimits.After(r.limiter, r.limits, now))
    else r
  }

  class PoolKey {
    const ID: string
    var Weight: int
    var RateLimitPerMinute: int
    var RateLimitPerDay: int
    var ConcurrentLimit: int

    var currentConcurrent: nat
    var minuteCounter: nat
    var dayCounter: nat
    var minuteResetAt: int
    var dayResetAt: int
    const circuitBreaker: CircuitBreaker?

    constructor (id: string, weight: int, perMinute: int, perDay: int, concurrentLimit: int, breaker: CircuitBreaker?)
      ensures ID == id && Weight == weight && ConcurrentLimit == concurrentLimit && circuitBreaker == breaker
      ensures Limits() == RateLimits.Limits(perMinute, perDay)
      ensures currentConcurrent == 0 && Limiter() == RateLimits.FRESH
    {
      ID, Weight, circuitBreaker := id, weight, breaker;
      RateLimitPerMinute, RateLimitPerDay, ConcurrentLimit := perMinute, perDay, concurrentLimit;
      currentConcurrent, minuteCounter, dayCounter := 0, 0, 0;
      minuteResetAt, dayResetAt := 0, 0;
    }

    function Limiter(): RateLimits.Limiter
      reads this
    {
      RateLimits.Limiter(minuteCounter, dayCounter, minuteResetAt, dayResetAt)
    }

    function Limits(): RateLimits.Limits
      reads this
    {
      RateLimits.Limits(RateLimitPerMinute, RateLimitPerDay)
    }

    function State(): Runtime
      reads this
    {
      Runtime(currentConcurrent, ConcurrentLimit, Limiter(), Limits())
    }

    predicate HasSlot()
      reads this
    {
      currentConcurrent < ConcurrentLimit
    }

    /** The part of the key that the lease protocol sees. */
    function Slots(): Leases.Key
      reads this
    {
      Leases.Key(ConcurrentLimit, currentConcurrent)
    }

    /** Takes a slot when there is one; never ends above the limit. */
    method TryConcurrentAcquire() returns (ok: bool)
      modifies this`currentConcurrent
      ensures ok <==> old(currentConcurrent) < ConcurrentLimit
      ensures currentConcurrent == old(currentConcurrent) + (if ok then 1 else 0)
      ensures (ok, Slots()) == Leases.TryAcquire(old(Slots()))
    {
      if currentConcurrent >= ConcurrentLimit {
        return false;
      }
      currentConcurrent := currentConcurrent + 1;
      return true;
    }

    method ConcurrentRelease()
      modifies this`currentConcurrent
      ensures currentConcurrent == if old(currentConcurrent) > 0 then old(currentConcurrent) - 1 else 0
      ensures Slots() == Leases.Released(old(Slots()))
    {
      if currentConcurrent > 0 {
        currentConcurrent := currentConcurrent - 1;
      }
    }

    /** Both windows at once: what the limiter function says of the state before. */
    method TryRateLimit(now: int) returns (ok: bool)
      modifies this`minuteCounter, this`dayCounter, this`minuteResetAt, this`dayResetAt
      ensures ok <==> RateLimits.Grants(old(Limiter()), Limits(), now)
      ensures Limiter() == RateLimits.After(old(Limiter()), Limits(), now)
      ensures
        var minute := if now > old(minuteResetAt) then 0 else old(minuteCounter);
        var day := if now > old(dayResetAt) then 0 else old(dayCounter);
        && (ok <==> minute < RateLimitPerMinute && day < RateLimitPerDay)
        && minuteCounter == minute + (if ok then 1 else 0) && dayCounter == day + (if ok then 1 else 0)
      ensures minuteResetAt == if now > old(minuteResetAt) then now + 60_000_000_000 else old(minuteResetAt)
      ensures dayResetAt == if now > old(dayResetAt) then now + 86_400_000_000_000 else old(dayResetAt)
    {
      if now > minuteResetAt {
        minuteCounter := 0;
        minuteResetAt := now + RateLimits.MINUTE;
      }
      if now > dayResetAt {
        dayCounter := 0;
        dayResetAt := now + RateLimits.DAY;
      }
      if minuteCounter >= RateLimitPerMinute {
        return false;
      }
      if dayCounter >= RateLimitPerDay {
        return false;
      }
      minuteCounter := minuteCounter + 1;
      dayCounter := dayCounter + 1;
      return true;
    }
  }
}
