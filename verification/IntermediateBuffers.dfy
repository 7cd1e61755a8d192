/** The memory that every probing thread gets for the hash tables of its join tasks, sized by the
    largest build side. */
module IntermediateBuffers {
  import opened Bits

  /** `next_pow_2` of a positive number. */
  function NextPow2(n: nat): (p: nat)
    requires 0 < n
    ensures n <= p
  {
    if n == 1 then 1 else 2 * NextPow2((n + 1) / 2)
  }

  lemma {:induction false} NextPow2IsPow2(n: nat) returns (k: nat)
    requires 0 < n
    ensures NextPow2(n) == Pow2(k)
  {
    if n == 1 {
      k := 0;
    } else {
      k := NextPow2IsPow2((n + 1) / 2);
      k := k + 1;
    }
  }

  /** It is the least power of two that is large enough. */
  lemma {:induction false} NextPow2IsLeast(n: nat, k: nat)
    requires 0 < n <= Pow2(k)
    ensures NextPow2(n) <= Pow2(k)
  {
    if n > 1 {
      NextPow2IsLeast((n + 1) / 2, k - 1);
    }
  }

  lemma NextPow2BelowTwice(n: nat)
    requires 0 < n
    ensures NextPow2(n) < 2 * n
  {
    var k := NextPow2IsPow2(n);
    if k > 0 && Pow2(k - 1) >= n {
      NextPow2IsLeast(n, k - 1);
    }
  }

  lemma NextPow2Monotone(n: nat, max: nat)
    requires 0 < n <= max
    ensures NextPow2(n) <= NextPow2(max)
  {
    var k := NextPow2IsPow2(max);
    NextPow2IsLeast(n, k);
  }

  // The sizes, for 16-byte tuples: keys, row ids, hash keys and counters have 8 bytes, a vector has
  // 64.  `bkt` is the size of a bucket and `cap` its capacity.

  function BcBytes(n: nat): nat requires 0 < n { 8 * NextPow2(n) + 8 * n }

  function LpBytes(n: nat): nat requires 0 < n { 16 * NextPow2(n) }

  function HrBytes(n: nat): nat requires 0 < n { 8 * NextPow2(n) }

  function ScBytes(n: nat, bkt: nat, cap: nat): nat
    requires 0 < n && 0 < cap
  {
    bkt * (NextPow2(n) / cap) * 2
  }

  function HroBytes(n: nat): nat
    requires 0 < n
  {
    8 * (if NextPow2(n) / 4 < 4 then 4 else NextPow2(n) / 4) + 3 * 64
  }

  /** What each thread gets, with the scaling factor of the build. */
  function Given(max: nat, scale: nat): nat requires 0 < max { 8 * NextPow2(max) * scale }

  function GivenForSc(max: nat, scale: nat, bkt: nat, cap: nat): nat
    requires 0 < max && 0 < cap
  {
    bkt * NextPow2(max) * scale / cap
  }

  /** Every task within the maximum fits, as soon as the scaling factor is at least 2. */
  lemma TablesFit(n: nat, max: nat, scale: nat)
    requires 0 < n <= max && 2 <= scale
    ensures BcBytes(n) <= Given(max, scale)
    ensures LpBytes(n) <= Given(max, scale)
    ensures HrBytes(n) <= Given(max, scale)
  {
    NextPow2Monotone(n, max);
    MulMonotone(8 * NextPow2(max), 2, scale);
  }

  /** The factor cannot be smaller: it must be 2 for the tables of bucket chaining and linear probing,
      which the larger of them fills, and 1 for that of the histogram kernel. */
  lemma FactorIsNeeded(max: nat, scale: nat)
    requires 0 < max
    ensures (forall n: nat :: 0 < n <= max ==> BcBytes(n) <= Given(max, scale)) <==> 2 <= scale
    ensures (forall n: nat :: 0 < n <= max ==> LpBytes(n) <= Given(max, scale)) <==> 2 <= scale
    ensures (forall n: nat :: 0 < n <= max ==> HrBytes(n) <= Given(max, scale)) <==> 1 <= scale
    ensures LpBytes(max) == Given(max, 2) && HrBytes(max) == Given(max, 1)
  {
    if scale >= 2 {
      forall n: nat | 0 < n <= max
        ensures BcBytes(n) <= Given(max, scale) && LpBytes(n) <= Given(max, scale) && HrBytes(n) <= Given(max, scale)
      {
        TablesFit(n, max, scale);
      }
    } else if scale == 1 {
      assert BcBytes(max) > Given(max, scale) && LpBytes(max) > Given(max, scale);
      forall n: nat | 0 < n <= max
        ensures HrBytes(n) <= Given(max, scale)
      {
        NextPow2Monotone(n, max);
      }
    } else {
      assert BcBytes(max) > Given(max, scale) && LpBytes(max) > Given(max, scale) && HrBytes(max) > Given(max, scale);
    }
  }

  lemma MulMonotone(a: nat, b: nat, c: nat)
    requires b <= c
    ensures a * b <= a * c
  {
  }

  /** `x / d * d`, without the remainder. */
  lemma WholeBuckets(x: nat, d: nat)
    requires 0 < d
    ensures x / d * d <= x
  {
  }

  lemma ScTableFits(n: nat, max: nat, scale: nat, bkt: nat, cap: nat)
    requires 0 < n <= max && 2 <= scale && 0 < cap
    ensures ScBytes(n, bkt, cap) <= GivenForSc(max, scale, bkt, cap)
  {
    NextPow2Monotone(n, max);
    var q := NextPow2(n) / cap;
    WholeBuckets(NextPow2(n), cap);
    BucketsFit(bkt, q, cap, NextPow2(max), scale);
    QuotientBound(bkt * NextPow2(max) * scale, cap, bkt * q * 2);
  }

  /** Where the capacity divides the rounded size, the two halves fill what is given exactly. */
  lemma ScTableFills(n: nat, bkt: nat, cap: nat, q: nat)
    requires 0 < n && 0 < cap && q * cap == NextPow2(n)
    ensures ScBytes(n, bkt, cap) == bkt * q * 2 == GivenForSc(n, 2, bkt, cap)
  {
    QuotientOf(q, cap);
    Regroup(bkt, q, cap);
    QuotientOf(bkt * q * 2, cap);
  }

  lemma QuotientOf(q: nat, d: nat)
    requires 0 < d
    ensures q * d / d == q
  {
    QuotientBound(q * d, d, q);
    WholeBuckets(q * d, d);
  }

  lemma BucketsFit(bkt: nat, q: nat, cap: nat, size: nat, scale: nat)
    requires q * cap <= size && 2 <= scale
    ensures bkt * q * 2 * cap <= bkt * size * scale
  {
    Regroup(bkt, q, cap);
    MulMonotone(bkt, q * cap, size);
    MulMonotone(bkt * size, 2, scale);
  }

  lemma Regroup(a: nat, b: nat, c: nat)
    ensures a * b * 2 * c == a * (b * c) * 2
  {
    calc {
      a * b * 2 * c;
    == { Commute(a * b, c); }
      a * b * c * 2;
    == { Associate(a, b, c); }
      a * (b * c) * 2;
    }
  }

  lemma Commute(x: nat, c: nat)
    ensures x * 2 * c == x * c * 2
  {
  }

  lemma Associate(a: nat, b: nat, c: nat)
    ensures a * b * c == a * (b * c)
  {
  }

  lemma QuotientBound(x: nat, d: nat, q: nat)
    requires 0 < d && q * d <= x
    ensures q <= x / d
  {
    if x / d < q {
      AboveQuotient(x, d);
      MulMonotone(d, x / d + 1, q);
    }
  }

  lemma AboveQuotient(x: nat, d: nat)
    requires 0 < d
    ensures x < d * (x / d + 1)
  {
  }

  lemma {:induction false} BigPow2(k: nat)
    ensures k <= 3 ==> Pow2(k) <= 8
    ensures k >= 4 ==> Pow2(k) >= 16
  {
    if k > 0 {
      BigPow2(k - 1);
    }
    assert Pow2(3) == 2 * Pow2(2) == 8;
  }

  /** The vectorised kernel also needs three vectors of its own: with the default factor of 2 its
      table fits, for all tasks within the maximum, exactly when the maximum is above 8. */
  lemma HroTableFits(max: nat)
    requires 0 < max
    ensures (forall n: nat :: 0 < n <= max ==> HroBytes(n) <= Given(max, 2)) <==> max > 8
  {
    var k := NextPow2IsPow2(max);
    BigPow2(k);
    if max > 8 {
      forall n: nat | 0 < n <= max
        ensures HroBytes(n) <= Given(max, 2)
      {
        NextPow2Monotone(n, max);
      }
    } else {
      NextPow2IsLeast(max, 3);
      assert HroBytes(max) > Given(max, 2);
    }
  }
}
