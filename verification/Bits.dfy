/** The bit arithmetic behind every hash and every slot computation: `&`, `<<` and `>>` on
    naturals, the `IDHASH` macro, and what those become for power-of-two masks. */
module Bits {

  function Pow2(n: nat): (p: nat)
    ensures p >= 1
  {
    if n == 0 then 1 else 2 * Pow2(n - 1)
  }

  ghost predicate IsPow2(t: nat) {
    exists n: nat :: t == Pow2(n)
  }

  /** Bitwise conjunction, one bit at a time. */
  function And(x: nat, y: nat): nat {
    if x == 0 || y == 0 then 0
    else 2 * And(x / 2, y / 2) + (if x % 2 == 1 && y % 2 == 1 then 1 else 0)
  }

  /** Multiplication as repeated addition. */
  function Times(a: int, b: nat): nat
    decreases if a <= 0 then 0 else a
  {
    if a <= 0 then 0 else Times(a - 1, b) + b
  }

  lemma {:induction false} TimesIsProduct(a: nat, b: nat)
    ensures Times(a, b) == a * b
  {
    if a > 0 {
      TimesIsProduct(a - 1, b);
      assert a * b == (a - 1) * b + b;
    }
  }

  lemma {:induction false} TimesMonotone(a: nat, a': nat, b: nat)
    requires a <= a'
    ensures Times(a, b) <= Times(a', b)
    ensures a < a' ==> Times(a, b) + b <= Times(a', b)
  {
    if a < a' {
      TimesMonotone(a, a' - 1, b);
    }
  }

  lemma {:induction false} TimesPlus(a: nat, a': nat, b: nat)
    ensures Times(a + a', b) == Times(a, b) + Times(a', b)
  {
    if a > 0 {
      TimesPlus(a - 1, a', b);
    }
  }

  function Shl(x: nat, k: nat): nat { if k == 0 then x else 2 * Shl(x, k - 1) }

  function Shr(x: nat, k: nat): nat { if k == 0 then x else Shr(x / 2, k - 1) }

  /** `IDHASH(X, MASK, BITSKIP)` */
  function IdHash(x: nat, mask: nat, skip: nat): nat {
    Shr(And(x, mask), skip)
  }

  /** A radix: how many clusters there are, and how many low bits of a key are skipped. */
  datatype RadixRecord = Radix(fanout: nat, skip: nat)

  type Radix = r: RadixRecord | r.fanout > 0 witness Radix(1, 0)

  /** The cluster of a key, with the mask that every caller builds: `(fanout - 1) << skip`.  It is in
      range for every fanout, a power of two or not. */
  function Hash(r: Radix, key: nat): (p: nat)
    ensures p < r.fanout
  {
    RadixHash(key, r.fanout, r.skip)
  }

  function RadixHash(key: nat, fanout: nat, skip: nat): (p: nat)
    requires fanout > 0
    ensures p < fanout
  {
    HashInRange(fanout, skip, key);
    IdHash(key, Shl(fanout - 1, skip), skip)
  }

  /** The remainder of `x` by `t`, in a form that needs no division. */
  function Off(x: nat, t: nat): (m: nat)
    requires 0 < t
    ensures m < t && m <= x
  {
    if x < t then x else Off(x - t, t)
  }

  lemma {:induction false} OffIsRemainder(x: nat, t: nat)
    requires 0 < t
    ensures Off(x, t) == x % t
  {
    if x >= t {
      OffIsRemainder(x - t, t);
      var y := x - t;
      assert y == t * (y / t) + y % t;
      RemainderUnique(x, t, y / t + 1, y % t);
    } else {
      RemainderUnique(x, t, 0, x);
    }
  }

  /** `slot & (TUPLE_PER_SWWCB - 1)` and `pos & hashmask` are remainders, because the number of
      slots is a power of two. */
  lemma MaskIsOff(x: nat, t: nat)
    requires IsPow2(t)
    ensures And(x, t - 1) == Off(x, t)
  {
    var n: nat :| t == Pow2(n);
    AndLowMask(x, n);
    OffIsRemainder(x, t);
  }

  lemma {:induction false} AndAtMost(x: nat, y: nat)
    ensures And(x, y) <= y
  {
    if x != 0 && y != 0 {
      AndAtMost(x / 2, y / 2);
    }
  }

  lemma HashInRange(fanout: nat, skip: nat, key: nat)
    requires fanout > 0
    ensures IdHash(key, Shl(fanout - 1, skip), skip) < fanout
  {
    AndAtMost(key, Shl(fanout - 1, skip));
    ShrMonotone(And(key, Shl(fanout - 1, skip)), Shl(fanout - 1, skip), skip);
    ShrShl(fanout - 1, skip);
  }

  lemma {:induction false} ShrMonotone(x: nat, y: nat, k: nat)
    requires x <= y
    ensures Shr(x, k) <= Shr(y, k)
  {
    if k > 0 {
      ShrMonotone(x / 2, y / 2, k - 1);
    }
  }

  lemma {:induction false} ShrShl(a: nat, k: nat)
    ensures Shr(Shl(a, k), k) == a
  {
    if k > 0 {
      ShrShl(a, k - 1);
      assert Shl(a, k) / 2 == Shl(a, k - 1);
    }
  }

  lemma MulGrows(d: nat, k: nat)
    requires 1 <= k
    ensures d * k >= d
  {
  }

  lemma {:induction false} AndLowMask(x: nat, n: nat)
    ensures And(x, Pow2(n) - 1) == x % Pow2(n)
  {
    if n > 0 {
      AndLowMask(x / 2, n - 1);
      var h := Pow2(n - 1);
      assert (Pow2(n) - 1) / 2 == h - 1 && (Pow2(n) - 1) % 2 == 1;
      HalfMod(x, h);
    }
  }

  lemma HalfMod(x: nat, h: nat)
    requires h >= 1
    ensures x % (2 * h) == 2 * ((x / 2) % h) + x % 2
  {
    var q, m := x / 2 / h, (x / 2) % h;
    assert x / 2 == q * h + m;
    assert x == (2 * h) * q + (2 * m + x % 2);
    RemainderUnique(x, 2 * h, q, 2 * m + x % 2);
  }

  lemma RemainderUnique(x: nat, d: nat, q: nat, m: nat)
    requires 0 < d && m < d && x == d * q + m
    ensures x / d == q && x % d == m
  {
    var q', m' := x / d, x % d;
    assert x == d * q' + m';
    if q' < q {
      MulGrows(d, q - q');
    } else if q < q' {
      MulGrows(d, q' - q);
    }
  }

  lemma ModPlus(a: nat, b: nat, d: nat)
    requires 0 < d
    ensures (a % d + b) % d == (a + b) % d
  {
    var c := a % d + b;
    QuotientAndRemainder(a, d);
    QuotientAndRemainder(c, d);
    Distribute(d, a / d, c / d);
    RemainderUnique(a + b, d, a / d + c / d, c % d);
  }

  lemma QuotientAndRemainder(x: nat, d: nat)
    requires 0 < d
    ensures x == d * (x / d) + x % d && x % d < d
  {
  }

  lemma Distribute(d: nat, p: nat, q: nat)
    ensures d * (p + q) == d * p + d * q
  {
  }

  /** `IDHASH` for a fanout that is a power of two: exactly the field of key bits from `skip` on that
      has as many bits as the fanout needs. */
  lemma IdHashReadsRadixBits(x: nat, fanout: nat, skip: nat)
    requires IsPow2(fanout)
    ensures RadixHash(x, fanout, skip) == Shr(x, skip) % fanout
  {
    HashIsMasked(x, fanout, skip);
    MaskIsRemainder(Shr(x, skip), fanout);
  }

  lemma HashIsMasked(x: nat, fanout: nat, skip: nat)
    requires fanout > 0
    ensures RadixHash(x, fanout, skip) == And(Shr(x, skip), fanout - 1)
  {
    MaskThenShift(x, fanout - 1, skip);
  }

  lemma MaskIsRemainder(x: nat, t: nat)
    requires IsPow2(t)
    ensures And(x, t - 1) == x % t
  {
    MaskIsOff(x, t);
    OffIsRemainder(x, t);
  }

  /** Masking before shifting is masking with the unshifted mask after it. */
  lemma MaskThenShift(x: nat, m: nat, skip: nat)
    ensures Shr(And(x, Shl(m, skip)), skip) == And(Shr(x, skip), m)
  {
    AndShifted(x, m, skip);
    ShrShl(And(Shr(x, skip), m), skip);
  }

  lemma {:induction false} AndShifted(x: nat, m: nat, k: nat)
    ensures And(x, Shl(m, k)) == Shl(And(Shr(x, k), m), k)
  {
    if k > 0 {
      AndStep(x, Shl(m, k));
      AndShifted(x / 2, m, k - 1);
    }
  }

  lemma {:induction false} ShrDivides(x: nat, k: nat)
    ensures Shr(x, k) == x / Pow2(k)
  {
    if k > 0 {
      ShrDivides(x / 2, k - 1);
      DivDiv(x, Pow2(k - 1));
    }
  }

  lemma DivDiv(x: nat, h: nat)
    requires h >= 1
    ensures x / (2 * h) == (x / 2) / h
  {
    var q, m := x / 2 / h, (x / 2) % h;
    assert x / 2 == h * q + m;
    assert x == (2 * h) * q + (2 * m + x % 2);
    RemainderUnique(x, 2 * h, q, 2 * m + x % 2);
  }

  /** A `size_t` mask that loses its high bits to the shift still gives the same hash,
      because a `size_t` key has no bits there. */
  lemma {:induction false} AndTruncated(x: nat, y: nat, width: nat)
    requires x < Pow2(width)
    ensures And(x, y % Pow2(width)) == And(x, y)
  {
    if width > 0 && x > 0 {
      AndTruncated(x / 2, y / 2, width - 1);
      HalfMod(y, Pow2(width - 1));
      var y' := y % Pow2(width);
      assert y' / 2 == (y / 2) % Pow2(width - 1) && y' % 2 == y % 2;
      AndStep(x, y);
      AndStep(x, y');
    }
  }

  lemma AndStep(x: nat, y: nat)
    ensures And(x, y) == 2 * And(x / 2, y / 2) + (if x % 2 == 1 && y % 2 == 1 then 1 else 0)
  {
  }

  /** The hash as computed in `size_t` arithmetic of the given width. */
  lemma HashInMachineWords(fanout: nat, skip: nat, key: nat, width: nat)
    requires 0 < fanout && key < Pow2(width)
    ensures IdHash(key, Shl(fanout - 1, skip) % Pow2(width), skip) == Hash(Radix(fanout, skip), key)
  {
    AndTruncated(key, Shl(fanout - 1, skip), width);
  }
}

/** Aligned blocks of `t` slots. */
module Blocks {
  import opened Bits

  /** The first slot of the block that holds slot `q`. */
  function Base(q: nat, t: nat): (b: nat)
    requires 0 < t
    ensures b <= q < b + t
  {
    q - Off(q, t)
  }

  lemma {:induction false} OffOf(b: nat, j: nat, t: nat)
    requires 0 < t && Off(b, t) == 0 && j < t
    ensures Off(b + j, t) == j
  {
    if b >= t {
      OffOf(b - t, j, t);
    }
  }

  lemma {:induction false} BaseAligned(q: nat, t: nat)
    requires 0 < t
    ensures Off(Base(q, t), t) == 0
  {
    if q >= t {
      BaseAligned(q - t, t);
    }
  }

  lemma BaseUnique(b: nat, q: nat, t: nat)
    requires 0 < t && Off(b, t) == 0 && b <= q < b + t
    ensures Base(q, t) == b
  {
    OffOf(b, q - b, t);
  }

  /** A slot below an aligned block lies in a block below it. */
  lemma BlockBelow(q: nat, l: nat, t: nat)
    requires 0 < t && q < Base(l, t)
    ensures Base(q, t) + t <= Base(l, t)
  {
    BaseAligned(l, t);
    BaseAligned(q, t);
    if Base(l, t) < Base(q, t) + t {
      BaseUnique(Base(q, t), Base(l, t), t);
    }
  }

  lemma BaseMonotone(q: nat, l: nat, t: nat)
    requires 0 < t && q <= l
    ensures Base(q, t) <= Base(l, t)
  {
    if q >= Base(l, t) {
      BaseAligned(l, t);
      BaseUnique(Base(l, t), q, t);
    }
  }

  lemma NextSlot(q: nat, t: nat)
    requires 0 < t
    ensures Off(q, t) == t - 1 ==> Off(q + 1, t) == 0 && Base(q + 1, t) == q + 1
    ensures Off(q, t) != t - 1 ==> Off(q + 1, t) == Off(q, t) + 1 && Base(q + 1, t) == Base(q, t)
  {
    BaseAligned(q, t);
    if Off(q, t) == t - 1 {
      NextBlock(Base(q, t), t);
    } else {
      OffOf(Base(q, t), Off(q, t) + 1, t);
    }
  }

  lemma {:induction false} NextBlock(b: nat, t: nat)
    requires 0 < t && Off(b, t) == 0
    ensures Off(b + t, t) == 0
  {
  }
}
