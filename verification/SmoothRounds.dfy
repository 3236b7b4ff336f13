/**
 Smooth weighted round robin as arithmetic on a vector of accumulators.

 Nothing here depends on how ties are broken: a run is any list of picks each of which was
 a largest credited accumulator when it was made.
 */
module SmoothRounds {
  import opened Arithmetic

  function Sum(a: seq<int>): int {
    if a == [] then 0 else Sum(a[..|a| - 1]) + a[|a| - 1]
  }

  /** One step on vectors: all gain, the pick pays. */
  function VStep(a: seq<int>, w: seq<int>, j: nat): (b: seq<int>)
    requires |a| == |w|
    ensures |b| == |a|
  {
    seq(|a|, i requires 0 <= i < |a| => a[i] + w[i] - (if i == j then Sum(w) else 0))
  }

  lemma {:induction false} SumAdd(a: seq<int>, b: seq<int>, c: seq<int>)
    requires |a| == |b| == |c|
    requires forall i :: 0 <= i < |a| ==> c[i] == a[i] + b[i]
    ensures Sum(c) == Sum(a) + Sum(b)
  {
    if a != [] {
      SumAdd(a[..|a| - 1], b[..|b| - 1], c[..|c| - 1]);
    }
  }

  lemma {:induction false} SumSingle(a: seq<int>, j: nat, x: int)
    requires j < |a| && a[j] == x
    requires forall i :: 0 <= i < |a| && i != j ==> a[i] == 0
    ensures Sum(a) == x
  {
    if j == |a| - 1 {
      SumZero(a[..j]);
    } else {
      SumSingle(a[..|a| - 1], j, x);
    }
  }

  lemma {:induction false} SumZero(a: seq<int>)
    requires forall i :: 0 <= i < |a| ==> a[i] == 0
    ensures Sum(a) == 0
  {
    if a != [] {
      SumZero(a[..|a| - 1]);
    }
  }

  /** Non-negative numbers that add up to 0 are all 0. */
  lemma {:induction false} ZeroSumZero(a: seq<int>)
    requires forall i :: 0 <= i < |a| ==> 0 <= a[i]
    ensures 0 <= Sum(a)
    ensures Sum(a) == 0 ==> forall i :: 0 <= i < |a| ==> a[i] == 0
  {
    if a != [] {
      ZeroSumZero(a[..|a| - 1]);
    }
  }

  /** The largest of n numbers is at least their average. */
  lemma {:induction false} SumAtMost(a: seq<int>, m: int)
    requires forall i :: 0 <= i < |a| ==> a[i] <= m
    ensures Sum(a) <= |a| * m
  {
    if a != [] {
      SumAtMost(a[..|a| - 1], m);
      assert |a| * m == (|a| - 1) * m + m;
    }
  }

  lemma {:induction false} SumVStep(a: seq<int>, w: seq<int>, j: nat)
    requires |a| == |w| && j < |a|
    ensures Sum(VStep(a, w, j)) == Sum(a)
  {
    var plus := seq(|a|, i requires 0 <= i < |a| => a[i] + w[i]);
    var charge := seq(|a|, i requires 0 <= i < |a| => if i == j then -Sum(w) else 0);
    SumAdd(a, w, plus);
    SumSingle(charge, j, -Sum(w));
    SumAdd(plus, charge, VStep(a, w, j));
  }

  // ----- runs -----

  /** A possible choice: no credited accumulator is larger. */
  ghost predicate Largest(a: seq<int>, w: seq<int>, j: nat) {
    && |a| == |w| && j < |a|
    && forall i :: 0 <= i < |a| ==> a[i] + w[i] <= a[j] + w[j]
  }

  function Zeros(n: nat): (a: seq<int>)
    ensures |a| == n
  {
    seq(n, i => 0)
  }

  /** The accumulators after the picks js, starting from zero. */
  function Acc(w: seq<int>, js: seq<nat>): (a: seq<int>)
    ensures |a| == |w|
  {
    if js == [] then Zeros(|w|) else VStep(Acc(w, js[..|js| - 1]), w, js[|js| - 1])
  }

  ghost predicate Run(w: seq<int>, js: seq<nat>) {
    js == [] || (Run(w, js[..|js| - 1]) && Largest(Acc(w, js[..|js| - 1]), w, js[|js| - 1]))
  }

  function Count(js: seq<nat>, i: nat): nat {
    if js == [] then 0 else Count(js[..|js| - 1], i) + (if js[|js| - 1] == i then 1 else 0)
  }

  ghost predicate Weights(w: seq<int>) {
    (forall i :: 0 <= i < |w| ==> 0 <= w[i]) && 1 <= Sum(w)
  }

  /** The accumulators always add up to zero: what all keys gain, the pick pays. */
  lemma {:induction false} Conserved(w: seq<int>, js: seq<nat>)
    requires Run(w, js)
    ensures Sum(Acc(w, js)) == 0
  {
    if js == [] {
      SumZero(Acc(w, js));
    } else {
      Conserved(w, js[..|js| - 1]);
      SumVStep(Acc(w, js[..|js| - 1]), w, js[|js| - 1]);
    }
  }

  /** The pick holds at least the average, so at least W/n, before it pays. */
  lemma {:induction false} PickHoldsAverage(a: seq<int>, w: seq<int>, j: nat)
    requires Largest(a, w, j) && Sum(a) == 0
    ensures Sum(w) <= |a| * (a[j] + w[j])
  {
    var b := seq(|a|, i requires 0 <= i < |a| => a[i] + w[i]);
    SumAdd(a, w, b);
    SumAtMost(b, a[j] + w[j]);
  }

  /** x is at least W/n - W, written without division. */
  ghost predicate Owes(n: nat, total: int, x: int) {
    total <= n * (x + total)
  }

  lemma OwesMore(n: nat, total: int, x: int, y: int)
    requires Owes(n, total, x) && x <= y
    ensures Owes(n, total, y)
  {
    assert n * (y + total) == n * (x + total) + n * (y - x);
  }

  lemma OwesStart(n: nat, total: nat)
    requires 1 <= n
    ensures Owes(n, total, 0)
  {
    assert n * total == total + (n - 1) * total;
  }

  /** No key is ever charged below W/n - W. */
  lemma {:induction false} BoundedBelow(w: seq<int>, js: seq<nat>, i: nat)
    requires Weights(w) && Run(w, js) && i < |w|
    ensures Owes(|w|, Sum(w), Acc(w, js)[i])
  {
    if js == [] {
      OwesStart(|w|, Sum(w));
    } else {
      var before, j := Acc(w, js[..|js| - 1]), js[|js| - 1];
      BoundedBelow(w, js[..|js| - 1], i);
      if i == j {
        Conserved(w, js[..|js| - 1]);
        PickHoldsAverage(before, w, j);
      } else {
        OwesMore(|w|, Sum(w), before[i], before[i] + w[i]);
      }
    }
  }

  /** Each accumulator is exactly the ideal share minus what the picks have cost. */
  lemma {:induction false} Accounting(w: seq<int>, js: seq<nat>, i: nat)
    requires i < |w|
    ensures Acc(w, js)[i] == |js| * w[i] - Sum(w) * Count(js, i)
  {
    if js != [] {
      var last := |js| - 1;
      Accounting(w, js[..last], i);
      Distribute(last, w[i], Sum(w), Count(js[..last], i));
    }
  }

  lemma Distribute(t: int, x: int, total: int, c: int)
    ensures (t + 1) * x == t * x + x
    ensures total * (c + 1) == total * c + total
  {
  }

  /**
   c picks out of t are ahead of the ideal share t * x / W of a key of weight x by at most
   1 - 1/n picks, here multiplied out by n * W.
   */
  ghost predicate LeadAtMost(n: nat, total: int, t: nat, x: int, c: nat) {
    n * (total * c - t * x) <= (n - 1) * total
  }

  lemma Rearrange(n: nat, total: int, t: nat, x: int, c: nat)
    requires Owes(n, total, t * x - total * c)
    ensures LeadAtMost(n, total, t, x, c)
  {
    var share, paid := t * x, total * c;
    assert n * (share - paid + total) == n * total - n * (paid - share);
  }

  /** Bounded lead: no key is ever more than 1 - 1/n picks ahead of its ideal share. */
  lemma {:induction false} LeadBound(w: seq<int>, js: seq<nat>, i: nat)
    requires Weights(w) && Run(w, js) && i < |w|
    ensures LeadAtMost(|w|, Sum(w), |js|, w[i], Count(js, i))
  {
    BoundedBelow(w, js, i);
    Accounting(w, js, i);
    Rearrange(|w|, Sum(w), |js|, w[i], Count(js, i));
  }

  lemma NotPositive(x: nat, y: int)
    requires y <= 0
    ensures x * y <= 0
  {
  }

  lemma WholeCharges(n: nat, total: int, d: int)
    requires 1 <= total && Owes(n, total, total * d)
    ensures 0 <= d
  {
    assert total * d + total == total * (d + 1);
    if d <= -1 {
      NotPositive(total, d + 1);
      NotPositive(n, total * (d + 1));
    }
  }

  lemma ZeroProduct(x: int, y: int)
    requires 0 < x && x * y == 0
    ensures y == 0
  {
  }

  lemma FactorOut(n: nat, total: int, x: int, c: int)
    requires 1 <= total && Owes(n, total, total * x - total * c)
    ensures c <= x
    ensures total * x - total * c == total * (x - c) >= 0
  {
    assert total * x - total * c == total * (x - c);
    WholeCharges(n, total, x - c);
    NotPositive(total, c - x);
  }

  lemma {:induction false} ShareNotExceeded(w: seq<int>, js: seq<nat>, i: nat)
    requires Weights(w) && Run(w, js) && |js| == Sum(w) && i < |w|
    ensures Count(js, i) <= w[i]
    ensures Acc(w, js)[i] == Sum(w) * (w[i] - Count(js, i)) >= 0
  {
    BoundedBelow(w, js, i);
    Accounting(w, js, i);
    FactorOut(|w|, Sum(w), w[i], Count(js, i));
  }

  /** Exact proportionality: W picks pick key i exactly w_i times and return every accumulator to zero. */
  lemma {:induction false} ExactShares(w: seq<int>, js: seq<nat>)
    requires Weights(w) && Run(w, js) && |js| == Sum(w)
    ensures forall i :: 0 <= i < |w| ==> Count(js, i) == w[i]
    ensures Acc(w, js) == Zeros(|w|)
  {
    var a := Acc(w, js);
    forall i | 0 <= i < |w|
      ensures 0 <= a[i]
    {
      ShareNotExceeded(w, js, i);
    }
    Conserved(w, js);
    ZeroSumZero(a);
    forall i | 0 <= i < |w|
      ensures Count(js, i) == w[i]
    {
      ShareNotExceeded(w, js, i);
      ZeroProduct(Sum(w), w[i] - Count(js, i));
    }
  }

  // ----- the harmonic bound on lag -----

  /** The sum of a over the marked positions. */
  function MaskSum(a: seq<int>, mask: seq<bool>): int
    requires |a| == |mask|
  {
    if a == [] then 0
    else
      var last := |a| - 1;
      MaskSum(a[..last], mask[..last]) + (if mask[last] then a[last] else 0)
  }

  /** How many positions are marked. */
  function Marks(mask: seq<bool>): (k: nat)
    ensures k <= |mask|
  {
    if mask == [] then 0 else Marks(mask[..|mask| - 1]) + (if mask[|mask| - 1] then 1 else 0)
  }

  /** 1/(k+1) + 1/(k+2) + ... + 1/n */
  function HarmonicTail(k: nat, n: nat): (r: real)
    ensures 0.0 <= r
    decreases n - k
  {
    if n <= k then 0.0 else 1.0 / (k + 1) as real + HarmonicTail(k + 1, n)
  }

  function Allowed(total: int, k: nat, n: nat): real {
    total as real * (k as real * HarmonicTail(k, n))
  }

  /** No k keys together are owed more than W * k * (1/(k+1) + ... + 1/n). */
  ghost predicate LagBounded(a: seq<int>, total: int) {
    forall mask: seq<bool> :: |mask| == |a| ==> MaskSum(a, mask) as real <= Allowed(total, Marks(mask), |a|)
  }

  lemma {:induction false} MaskSumAdd(a: seq<int>, b: seq<int>, c: seq<int>, mask: seq<bool>)
    requires |a| == |b| == |c| == |mask|
    requires forall i :: 0 <= i < |a| ==> c[i] == a[i] + b[i]
    ensures MaskSum(c, mask) == MaskSum(a, mask) + MaskSum(b, mask)
  {
    if a != [] {
      var last := |a| - 1;
      MaskSumAdd(a[..last], b[..last], c[..last], mask[..last]);
    }
  }

  lemma {:induction false} MarkOne(a: seq<int>, mask: seq<bool>, j: nat)
    requires |a| == |mask| && j < |a| && !mask[j]
    ensures Marks(mask[j := true]) == Marks(mask) + 1
    ensures MaskSum(a, mask[j := true]) == MaskSum(a, mask) + a[j]
  {
    var last := |a| - 1;
    var more := mask[j := true];
    if j == last {
      assert more[..last] == mask[..last];
    } else {
      MarkOne(a[..last], mask[..last], j);
      assert more[..last] == mask[..last][j := true];
    }
  }

  lemma {:induction false} MaskSumAtMost(a: seq<int>, mask: seq<bool>, m: int)
    requires |a| == |mask|
    requires forall i :: 0 <= i < |a| ==> a[i] <= m
    ensures MaskSum(a, mask) <= Marks(mask) * m
  {
    if a != [] {
      var last := |a| - 1;
      MaskSumAtMost(a[..last], mask[..last], m);
      assert Marks(mask) == Marks(mask[..last]) + (if mask[last] then 1 else 0);
      assert (Marks(mask[..last]) + 1) * m == Marks(mask[..last]) * m + m;
    }
  }

  lemma {:induction false} MaskSumPart(w: seq<int>, mask: seq<bool>)
    requires |w| == |mask|
    requires forall i :: 0 <= i < |w| ==> 0 <= w[i]
    ensures MaskSum(w, mask) <= Sum(w)
  {
    if w != [] {
      var last := |w| - 1;
      MaskSumPart(w[..last], mask[..last]);
    }
  }

  lemma {:induction false} NoMarks(a: seq<int>, mask: seq<bool>)
    requires |a| == |mask|
    requires forall i :: 0 <= i < |a| ==> !mask[i]
    ensures Marks(mask) == 0 && MaskSum(a, mask) == 0
  {
    if a != [] {
      NoMarks(a[..|a| - 1], mask[..|a| - 1]);
    }
  }

  lemma {:induction false} MaskSumVStep(a: seq<int>, w: seq<int>, b: seq<int>, j: nat, mask: seq<bool>, charge: int)
    requires |a| == |w| == |mask| == |b| && j < |a|
    requires forall i :: 0 <= i < |a| ==> b[i] == a[i] + w[i] - (if i == j then charge else 0)
    ensures MaskSum(b, mask) == MaskSum(a, mask) + MaskSum(w, mask) - (if mask[j] then charge else 0)
  {
    var last := |a| - 1;
    if j == last {
      MaskSumAdd(a[..last], w[..last], b[..last], mask[..last]);
    } else {
      MaskSumVStep(a[..last], w[..last], b[..last], j, mask[..last], charge);
    }
  }

  lemma {:induction false} NothingOwed(n: nat, mask: seq<bool>)
    requires |mask| == n
    ensures MaskSum(Zeros(n), mask) == 0
  {
    if n != 0 {
      NothingOwed(n - 1, mask[..n - 1]);
      assert Zeros(n)[..n - 1] == Zeros(n - 1);
    }
  }

  lemma AllowedNonNeg(total: nat, k: nat, n: nat)
    ensures 0.0 <= Allowed(total, k, n)
  {
    RealNonNeg(k as real, HarmonicTail(k, n));
    RealNonNeg(total as real, k as real * HarmonicTail(k, n));
  }

  lemma {:induction false} StartsLagBounded(n: nat, total: nat)
    ensures LagBounded(Zeros(n), total)
  {
    forall mask: seq<bool> | |mask| == n
      ensures MaskSum(Zeros(n), mask) as real <= Allowed(total, Marks(mask), n)
    {
      NothingOwed(n, mask);
      AllowedNonNeg(total, Marks(mask), n);
    }
  }

  lemma IntShare(k: nat, part: int, best: int)
    requires part <= k * best
    ensures (k + 1) * part <= k * (part + best)
  {
    assert (k + 1) * part == k * part + part;
    assert k * (part + best) == k * part + k * best;
  }

  lemma ToReal(x: int, y: int)
    ensures (x * y) as real == x as real * y as real
  {
  }

  /** With h the tail from k + 1 on: k * (w * (k+1) * h + w) is (k+1) times the allowance of k keys. */
  lemma AllowanceIdentity(w: real, k: real, h: real)
    requires 0.0 <= k
    ensures (k + 1.0) * (w * (k * (1.0 / (k + 1.0) + h))) == k * (w * ((k + 1.0) * h) + w)
  {
    var inv := 1.0 / (k + 1.0);
    assert (k + 1.0) * inv == 1.0;
    calc {
      (k + 1.0) * (w * (k * (inv + h)));
      w * (k * ((k + 1.0) * inv + (k + 1.0) * h));
      w * (k * (1.0 + (k + 1.0) * h));
      k * (w * ((k + 1.0) * h) + w);
    }
  }

  /** k keys, the pick and the others, are owed at most their allowance and the credit of the call. */
  predicate AfterCredit(part: int, best: int, total: int, k: nat, n: nat) {
    (part + best) as real <= Allowed(total, k, n) + total as real
  }

  /** IntShare on reals. */
  lemma RealShare(k: nat, part: int, best: int)
    requires part <= k * best
    ensures (k as real + 1.0) * part as real <= k as real * (part + best) as real
  {
    IntShare(k, part, best);
    ToReal(k + 1, part);
    ToReal(k, part + best);
  }

  lemma CreditedAllowance(total: nat, k: nat, n: nat)
    ensures Allowed(total, k + 1, n) + total as real
         == total as real * ((k as real + 1.0) * HarmonicTail(k + 1, n)) + total as real
  {
    assert (k + 1) as real == k as real + 1.0;
  }

  /** The k keys not picked hold at most k/(k+1) of what k+1 keys hold. */
  lemma {:induction false} RestOfGroup(total: nat, k: nat, n: nat, part: int, best: int)
    requires k < n && part <= k * best && AfterCredit(part, best, total, k + 1, n)
    ensures var h, w, kr := HarmonicTail(k + 1, n), total as real, k as real;
      (kr + 1.0) * part as real <= kr * (w * ((kr + 1.0) * h) + w)
  {
    RealShare(k, part, best);
    CreditedAllowance(total, k, n);
    RealMonotone(k as real, (part + best) as real, Allowed(total, k + 1, n) + total as real);
  }

  /** The inductive step, divided by k + 1. */
  lemma {:induction false} ShareArithmetic(total: nat, k: nat, n: nat, part: int, best: int)
    requires k < n && part <= k * best && AfterCredit(part, best, total, k + 1, n)
    ensures part as real <= Allowed(total, k, n)
  {
    RestOfGroup(total, k, n, part, best);
    AllowanceIdentity(total as real, k as real, HarmonicTail(k + 1, n));
    RealCancel(k as real + 1.0, part as real, Allowed(total, k, n));
  }

  /** One call keeps the bound for one group of keys. */
  lemma {:induction false} GroupKeepsLagBound(a: seq<int>, w: seq<int>, j: nat, mask: seq<bool>)
    requires Largest(a, w, j) && |mask| == |a|
    requires Weights(w) && LagBounded(a, Sum(w))
    ensures MaskSum(VStep(a, w, j), mask) as real <= Allowed(Sum(w), Marks(mask), |a|)
  {
    MaskSumVStep(a, w, VStep(a, w, j), j, mask, Sum(w));
    if mask[j] {
      MaskSumPart(w, mask);
    } else {
      GroupWithoutPick(a, w, j, mask);
      MaskSumAdd(a, w, Credited(a, w), mask);
    }
  }

  /** No key of a group has more than the pick. */
  lemma {:induction false} PartAtMost(a: seq<int>, w: seq<int>, j: nat, mask: seq<bool>)
    returns (k: nat, part: int, best: int)
    requires Largest(a, w, j) && |mask| == |a| && !mask[j]
    ensures k == Marks(mask) && part == MaskSum(Credited(a, w), mask) && best == a[j] + w[j]
    ensures k < |a| && part <= k * best
  {
    k, part, best := Marks(mask), MaskSum(Credited(a, w), mask), a[j] + w[j];
    MaskSumAtMost(Credited(a, w), mask, a[j] + w[j]);
    NotAllMarked(mask, j);
  }

  /** What the arithmetic needs to know of a group without the pick, as numbers. */
  lemma {:induction false} GroupInNumbers(a: seq<int>, w: seq<int>, j: nat, mask: seq<bool>)
    returns (k: nat, part: int, best: int)
    requires Largest(a, w, j) && |mask| == |a| && !mask[j]
    requires Weights(w) && LagBounded(a, Sum(w))
    ensures k == Marks(mask) && part == MaskSum(Credited(a, w), mask)
    ensures k < |a| && part <= k * best && AfterCredit(part, best, Sum(w), k + 1, |a|)
  {
    k, part, best := PartAtMost(a, w, j, mask);
    GroupWithPick(a, w, j, mask);
  }

  /** A group without the pick is owed no more than its allowance even after the credit. */
  lemma {:induction false} GroupWithoutPick(a: seq<int>, w: seq<int>, j: nat, mask: seq<bool>)
    requires Largest(a, w, j) && |mask| == |a| && !mask[j]
    requires Weights(w) && LagBounded(a, Sum(w))
    ensures MaskSum(Credited(a, w), mask) as real <= Allowed(Sum(w), Marks(mask), |a|)
  {
    var k, part, best := GroupInNumbers(a, w, j, mask);
    ShareArithmetic(Sum(w), k, |a|, part, best);
  }

  function Credited(a: seq<int>, w: seq<int>): (b: seq<int>)
    requires |a| == |w|
    ensures |b| == |a| && forall i :: 0 <= i < |a| ==> b[i] == a[i] + w[i]
  {
    seq(|a|, i requires 0 <= i < |a| => a[i] + w[i])
  }

  /** Together with the pick the group was owed at most its allowance, plus what the call credited. */
  lemma {:induction false} GroupWithPick(a: seq<int>, w: seq<int>, j: nat, mask: seq<bool>)
    requires |a| == |w| == |mask| && j < |a| && !mask[j]
    requires Weights(w) && LagBounded(a, Sum(w))
    ensures AfterCredit(MaskSum(Credited(a, w), mask), a[j] + w[j], Sum(w), Marks(mask) + 1, |a|)
  {
    var more := mask[j := true];
    MarkOne(Credited(a, w), mask, j);
    MaskSumAdd(a, w, Credited(a, w), more);
    MaskSumPart(w, more);
    assert MaskSum(a, more) as real <= Allowed(Sum(w), Marks(more), |a|);
  }

  lemma {:induction false} NotAllMarked(mask: seq<bool>, j: nat)
    requires j < |mask| && !mask[j]
    ensures Marks(mask) < |mask|
  {
    if j < |mask| - 1 {
      NotAllMarked(mask[..|mask| - 1], j);
    }
  }

  /** After any run, no group of k keys is owed more than W * k * (1/(k+1) + ... + 1/n). */
  lemma {:induction false} AlwaysLagBounded(w: seq<int>, js: seq<nat>)
    requires Weights(w) && Run(w, js)
    ensures LagBounded(Acc(w, js), Sum(w))
  {
    if js == [] {
      StartsLagBounded(|w|, Sum(w));
    } else {
      var a, j := Acc(w, js[..|js| - 1]), js[|js| - 1];
      AlwaysLagBounded(w, js[..|js| - 1]);
      forall mask: seq<bool> | |mask| == |w|
        ensures MaskSum(VStep(a, w, j), mask) as real <= Allowed(Sum(w), Marks(mask), |w|)
      {
        GroupKeepsLagBound(a, w, j, mask);
      }
    }
  }

  function OnlyMark(n: nat, i: nat): (mask: seq<bool>)
    ensures |mask| == n
  {
    seq(n, k => k == i)
  }

  lemma {:induction false} OnlyMarkSum(a: seq<int>, i: nat)
    requires i < |a|
    ensures Marks(OnlyMark(|a|, i)) == 1
    ensures MaskSum(a, OnlyMark(|a|, i)) == a[i]
  {
    var none := seq(|a|, k => false);
    NoMarks(a, none);
    MarkOne(a, none, i);
    assert none[i := true] == OnlyMark(|a|, i);
  }

  /** What t picks owe a key of weight x out of a total weight: t * x / total picks. */
  function IdealShare(t: nat, x: int, total: int): real
    requires 0 < total
  {
    (t * x) as real / total as real
  }

  lemma DivideOut(t: nat, x: int, total: int, picks: int, n: nat)
    requires 0 < total
    requires (t * x - total * picks) as real <= Allowed(total, 1, n)
    ensures IdealShare(t, x, total) - picks as real <= HarmonicTail(1, n)
  {
    var w, q, h := total as real, (t * x) as real / total as real, HarmonicTail(1, n);
    assert w * q == (t * x) as real;
    ToReal(total, picks);
    assert w * (q - picks as real) == w * q - w * picks as real;
    RealCancel(w, q - picks as real, h);
  }

  lemma {:induction false} SingleLag(a: seq<int>, total: int, n: nat, i: nat)
    requires i < |a| == n && LagBounded(a, total)
    ensures a[i] as real <= Allowed(total, 1, n)
  {
    OnlyMarkSum(a, i);
    assert MaskSum(a, OnlyMark(|a|, i)) as real <= Allowed(total, Marks(OnlyMark(|a|, i)), |a|);
  }

  lemma {:induction false} OwedAtMost(w: seq<int>, js: seq<nat>, i: nat)
    requires Weights(w) && Run(w, js) && i < |w|
    ensures Acc(w, js)[i] as real <= Allowed(Sum(w), 1, |w|)
  {
    AlwaysLagBounded(w, js);
    SingleLag(Acc(w, js), Sum(w), |w|, i);
  }

  /** Harmonic lag: no key is behind its ideal share t * w / W by more than 1/2 + 1/3 + ... + 1/n picks. */
  lemma {:induction false} LagBound(w: seq<int>, js: seq<nat>, i: nat)
    requires Weights(w) && Run(w, js) && i < |w|
    ensures IdealShare(|js|, w[i], Sum(w)) - Count(js, i) as real <= HarmonicTail(1, |w|)
  {
    OwedAtMost(w, js, i);
    Accounting(w, js, i);
    DivideOut(|js|, w[i], Sum(w), Count(js, i), |w|);
  }
}
