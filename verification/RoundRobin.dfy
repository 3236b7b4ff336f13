/** Plain rotation by a counter (internal/keypool/roundrobin.go). */
module RoundRobin {
  import opened Arithmetic

  /** The counter is a uint64 and wraps. */
  const TWO_64 := 0x1_0000_0000_0000_0000

  function Advance(counter: nat): nat {
    (counter + 1) % TWO_64
  }

  /** The position that call number t of a run from `counter` picks in a list of n keys. */
  function PickAt(counter: nat, t: nat, n: nat): (i: nat)
    requires 0 < n
    ensures i < n
  {
    (counter + t) % TWO_64 % n
  }

  /** How often position i is picked by m consecutive calls from `counter`. */
  function Picks(counter: nat, m: nat, n: nat, i: nat): nat
    requires 0 < n
  {
    if m == 0 then 0
    else Picks(counter, m - 1, n, i) + (if PickAt(counter, m - 1, n) == i then 1 else 0)
  }

  /** The same count with no wraparound: residues of counter .. counter + m. */
  function Hits(counter: nat, m: nat, n: nat, i: nat): nat
    requires 0 < n
  {
    if m == 0 then 0 else Hits(counter, m - 1, n, i) + (if (counter + (m - 1)) % n == i then 1 else 0)
  }

  lemma NoWrap(x: nat)
    requires x < TWO_64
    ensures x % TWO_64 == x
  {
  }

  lemma {:induction false} PicksAreHits(counter: nat, m: nat, n: nat, i: nat)
    requires 0 < n && counter + m <= TWO_64
    ensures Picks(counter, m, n, i) == Hits(counter, m, n, i)
  {
    if m != 0 {
      PicksAreHits(counter, m - 1, n, i);
      NoWrap(counter + (m - 1));
    }
  }

  lemma {:induction false} HitsSplit(counter: nat, m: nat, k: nat, n: nat, i: nat)
    requires 0 < n
    ensures Hits(counter, m + k, n, i) == Hits(counter, m, n, i) + Hits(counter + m, k, n, i)
  {
    if k != 0 {
      HitsSplit(counter, m, k - 1, n, i);
    }
  }

  lemma {:induction false} HitsBelow(m: nat, n: nat, i: nat)
    requires m <= n && 0 < n && i < n
    ensures Hits(0, m, n, i) == if i < m then 1 else 0
  {
    if m != 0 {
      HitsBelow(m - 1, n, i);
      assert (m - 1) % n == m - 1;
    }
  }

  /** Any n consecutive counters hit each residue exactly once. */
  lemma {:induction false} OneHitPerTurn(counter: nat, n: nat, i: nat)
    requires 0 < n && i < n
    ensures Hits(counter, n, n, i) == 1
  {
    if counter == 0 {
      HitsBelow(n, n, i);
    } else {
      OneHitPerTurn(counter - 1, n, i);
      HitsSplit(counter - 1, 1, n, n, i);
      HitsSplit(counter - 1, n, 1, n, i);
      AddDivisor(counter - 1, n);
      OneHit(counter - 1, n, i);
      OneHit(counter - 1 + n, n, i);
    }
  }

  lemma OneHit(counter: nat, n: nat, i: nat)
    requires 0 < n
    ensures Hits(counter, 1, n, i) == if counter % n == i then 1 else 0
  {
    assert Hits(counter, 0, n, i) == 0;
  }

  lemma {:induction false} HitsBalanced(counter: nat, m: nat, n: nat, i: nat)
    requires 0 < n && i < n
    ensures m / n <= Hits(counter, m, n, i) <= (m + n - 1) / n
    decreases m
  {
    if m < n {
      HitsSplit(counter, m, n - m, n, i);
      OneHitPerTurn(counter, n, i);
      SmallQuotients(m, n);
    } else {
      HitsSplit(counter, n, m - n, n, i);
      OneHitPerTurn(counter, n, i);
      HitsBalanced(counter + n, m - n, n, i);
      AddDivisor(m - n, n);
      AddDivisor(m - n + n - 1, n);
    }
  }

  lemma SmallQuotients(m: nat, n: nat)
    requires m < n
    ensures m / n == 0
    ensures (m + n - 1) / n == if m == 0 then 0 else 1
  {
    if m == 0 {
      assert (n - 1) / n == 0;
    } else {
      AddDivisor(m - 1, n);
      assert (m - 1) / n == 0;
    }
  }

  /**
   Balance: m consecutive calls on a fixed list of n keys pick each key floor(m/n) or
   ceil(m/n) times, from any counter from which the uint64 does not wrap meanwhile.
   */
  lemma {:induction false} RotationIsBalanced(counter: nat, m: nat, n: nat, i: nat)
    requires 0 < n && i < n && counter + m <= TWO_64
    ensures m / n <= Picks(counter, m, n, i) <= (m + n - 1) / n
  {
    PicksAreHits(counter, m, n, i);
    HitsBalanced(counter, m, n, i);
  }

  /** The counters of consecutive calls: each call leaves the next one its own, plus one. */
  ghost predicate Consecutive(counters: seq<nat>) {
    && counters != [] && counters[0] < TWO_64
    && forall t :: 0 <= t < |counters| - 1 ==> counters[t + 1] == Advance(counters[t])
  }

  /** A call later. */
  lemma AdvancePick(counter: nat, t: nat, n: nat)
    requires counter < TWO_64 && 0 < n
    ensures Advance(counter) < TWO_64 && PickAt(Advance(counter), t, n) == PickAt(counter, t + 1, n)
  {
    if counter + 1 == TWO_64 {
      AddDivisor(t, TWO_64);
      assert counter + (t + 1) == t + TWO_64;
    } else {
      NoWrap(counter + 1);
    }
  }

  /** The call number t of consecutive calls picks what PickAt says of the first counter. */
  lemma {:induction false} CallPicks(counters: seq<nat>, t: nat, s: nat, n: nat)
    requires Consecutive(counters) && t < |counters| && 0 < n
    ensures counters[t] < TWO_64 && PickAt(counters[t], s, n) == PickAt(counters[0], t + s, n)
  {
    if t != 0 {
      CallPicks(counters, t - 1, s + 1, n);
      AdvancePick(counters[t - 1], s, n);
    }
  }

  /** How often the first m of consecutive calls return position i: a call returns its counter modulo n. */
  function Returned(counters: seq<nat>, m: nat, n: nat, i: nat): nat
    requires m <= |counters| && 0 < n
  {
    if m == 0 then 0 else Returned(counters, m - 1, n, i) + (if counters[m - 1] % n == i then 1 else 0)
  }

  lemma {:induction false} ReturnedIsPicks(counters: seq<nat>, m: nat, n: nat, i: nat)
    requires Consecutive(counters) && m <= |counters| && 0 < n
    ensures Returned(counters, m, n, i) == Picks(counters[0], m, n, i)
  {
    if m != 0 {
      ReturnedIsPicks(counters, m - 1, n, i);
      CallPicks(counters, m - 1, 0, n);
      NoWrap(counters[m - 1]);
    }
  }

  /**
   Balance of repeated Selects: m calls, each on the counter that the one before left, return each of n
   keys floor(m/n) or ceil(m/n) times, as long as the uint64 does not wrap meanwhile.
   */
  lemma {:induction false} SelectsAreBalanced(counters: seq<nat>, m: nat, n: nat, i: nat)
    requires Consecutive(counters) && m <= |counters| && 0 < n && i < n && counters[0] + m <= TWO_64
    ensures m / n <= Returned(counters, m, n, i) <= (m + n - 1) / n
  {
    ReturnedIsPicks(counters, m, n, i);
    RotationIsBalanced(counters[0], m, n, i);
  }

  /**
   The bound on the counter is needed: across the wrap three calls on three keys pick
   position 0 twice and position 2 never.
   */
  lemma WrapSkips()
    ensures Picks(TWO_64 - 1, 3, 3, 0) == 2 && Picks(TWO_64 - 1, 3, 3, 1) == 1 && Picks(TWO_64 - 1, 3, 3, 2) == 0
  {
    assert PickAt(TWO_64 - 1, 0, 3) == 0;
    assert PickAt(TWO_64 - 1, 1, 3) == 0;
    assert PickAt(TWO_64 - 1, 2, 3) == 1;
    assert Picks(TWO_64 - 1, 1, 3, 0) == 1 && Picks(TWO_64 - 1, 1, 3, 1) == 0 && Picks(TWO_64 - 1, 1, 3, 2) == 0;
    assert Picks(TWO_64 - 1, 2, 3, 0) == 2 && Picks(TWO_64 - 1, 2, 3, 1) == 0 && Picks(TWO_64 - 1, 2, 3, 2) == 0;
  }

  // ----- across the wrap -----

  /** Balance with no bound on the counter or the number of calls. */
  ghost predicate AlwaysBalanced(n: nat)
    requires 0 < n
  {
    forall counter: nat, m: nat, i: nat :: counter < TWO_64 && i < n ==>
      m / n <= Picks(counter, m, n, i) <= (m + n - 1) / n
  }

  lemma DivisorModulo(x: nat, n: nat)
    requires 0 < n && TWO_64 % n == 0
    ensures x % TWO_64 % n == x % n
  {
    var a, b, k := x / TWO_64, x % TWO_64, TWO_64 / n;
    assert x == a * TWO_64 + b && TWO_64 == k * n && b == b / n * n + b % n;
    Regroup(a, k, n, b / n);
    assert x == (a * k + b / n) * n + b % n;
    Quotient(x, n, a * k + b / n, b % n);
  }

  lemma Regroup(a: int, k: int, n: int, c: int)
    ensures a * (k * n) + c * n == (a * k + c) * n
  {
  }

  lemma {:induction false} PicksAreHitsForDivisors(counter: nat, m: nat, n: nat, i: nat)
    requires 0 < n && TWO_64 % n == 0
    ensures Picks(counter, m, n, i) == Hits(counter, m, n, i)
  {
    if m != 0 {
      PicksAreHitsForDivisors(counter, m - 1, n, i);
      DivisorModulo(counter + (m - 1), n);
    }
  }

  /** From the last counter value the first n calls then miss the last key, unless n divides 2^64. */
  lemma {:induction false} LastKeyMissed(m: nat, n: nat)
    requires 0 < n && TWO_64 % n != 0 && m <= n
    ensures Picks(TWO_64 - 1, m, n, n - 1) == 0
  {
    if m != 0 {
      LastKeyMissed(m - 1, n);
      if m == 1 {
        FirstMisses(n);
      } else {
        WrappedMisses(m - 2, n);
      }
    }
  }

  lemma FirstMisses(n: nat)
    requires 0 < n && TWO_64 % n != 0
    ensures PickAt(TWO_64 - 1, 0, n) != n - 1
  {
    NoWrap(TWO_64 - 1);
    LastResidue(TWO_64 - 1, n);
  }

  lemma WrappedMisses(x: nat, n: nat)
    requires x + 1 < n
    ensures PickAt(TWO_64 - 1, x + 1, n) != n - 1
  {
    var y := x % TWO_64;
    assert y <= x;
    AddDivisor(x, TWO_64);
    SmallRemainder(y, n);
    assert TWO_64 - 1 + (x + 1) == x + TWO_64;
  }

  lemma LastResidue(x: nat, n: nat)
    requires 0 < n && (x + 1) % n != 0
    ensures x % n != n - 1
  {
    if x % n == n - 1 {
      var q := x / n;
      assert x + 1 == (q + 1) * n;
      Quotient(x + 1, n, q + 1, 0);
    }
  }

  lemma SmallRemainder(x: nat, n: nat)
    requires x < n
    ensures x % n == x
  {
    Quotient(x, n, 0, x);
  }

  /** The rotation stays balanced over every run, across any number of wraps, exactly when n divides 2^64. */
  lemma {:induction false} BalancedAcrossWrapIff(n: nat)
    requires 0 < n
    ensures AlwaysBalanced(n) <==> TWO_64 % n == 0
  {
    if TWO_64 % n == 0 {
      forall counter: nat, m: nat, i: nat | counter < TWO_64 && i < n
        ensures m / n <= Picks(counter, m, n, i) <= (m + n - 1) / n
      {
        PicksAreHitsForDivisors(counter, m, n, i);
        HitsBalanced(counter, m, n, i);
      }
    } else {
      LastKeyMissed(n, n);
      Quotient(n, n, 1, 0);
      assert n / n == 1 && Picks(TWO_64 - 1, n, n, n - 1) == 0;
    }
  }
}
