/** The unbuffered passes: every tuple is stored straight into its slot. */
module PlainScatter {
  import opened Bits
  import opened Relations
  import opened Offsets
  import opened Partitioning

  // ----- one store -----

  lemma HoldsElsewhere(mem: seq<Tuple>, at: nat, part: seq<Tuple>, q: nat, x: Tuple)
    requires HoldsAt(mem, at, part) && q < |mem| && (q < at || at + |part| <= q)
    ensures HoldsAt(mem[q := x], at, part)
  {
    assert mem[q := x][at..at + |part|] == mem[at..at + |part|];
  }

  lemma HoldsOneMore(mem: seq<Tuple>, at: nat, part: seq<Tuple>, x: Tuple)
    requires HoldsAt(mem, at, part) && at + |part| < |mem|
    ensures HoldsAt(mem[at + |part| := x], at, part + [x])
  {
    HoldsElsewhere(mem, at, part, at + |part|, x);
    HoldsBoth(mem[at + |part| := x], at, part, [x]);
  }

  lemma {:induction false} SelGrowsTo(rel: seq<Tuple>, i: nat, r: Radix, p: nat)
    requires i < |rel|
    ensures Sel(rel[..i + 1], r, p) == Sel(rel[..i], r, p) + (if Hash(r, rel[i].key) == p then [rel[i]] else [])
    ensures |Sel(rel[..i + 1], r, p)| <= |Sel(rel, r, p)|
  {
    Snoc(rel, i);
    SelSnoc(rel[..i], rel[i], r, p);
    assert rel == rel[..i + 1] + rel[i + 1..];
    SelConcat(rel[..i + 1], rel[i + 1..], r, p);
  }

  // ----- one thread on one relation -----

  ghost predicate ClusterAt(mem: seq<Tuple>, hist: seq<Bin>, rel: seq<Tuple>, i: nat, r: Radix, base: nat, pad: nat, p: nat)
    requires i <= |rel| && |hist| == r.fanout && p < r.fanout
  {
    && hist[p] == Bin(|Sel(rel, r, p)|, Below(rel, r, p) + |Sel(rel[..i], r, p)|)
    && HoldsAt(mem, ClusterBase(rel, r, base, pad, p), Sel(rel[..i], r, p))
  }

  ghost predicate Scattered(mem: seq<Tuple>, hist: seq<Bin>, rel: seq<Tuple>, i: nat, r: Radix, base: nat, pad: nat) {
    && i <= |rel| && |hist| == r.fanout && base + |rel| + Times(r.fanout, pad) <= |mem|
    && forall p: nat :: p < r.fanout ==> ClusterAt(mem, hist, rel, i, r, base, pad, p)
  }

  /** The slot of the next tuple. */
  function NextSlot(hist: seq<Bin>, rel: seq<Tuple>, i: nat, r: Radix, base: nat, pad: nat): nat
    requires i < |rel| && |hist| == r.fanout
  {
    var h := Hash(r, rel[i].key);
    base + hist[h].prefix + Times(h, pad)
  }

  function CountedUp(hist: seq<Bin>, h: nat): seq<Bin>
    requires h < |hist|
  {
    hist[h := Bin(hist[h].count, hist[h].prefix + 1)]
  }

  lemma ScatterOne(mem: seq<Tuple>, hist: seq<Bin>, rel: seq<Tuple>, i: nat, r: Radix, base: nat, pad: nat)
    requires Scattered(mem, hist, rel, i, r, base, pad) && i < |rel|
    ensures var q := NextSlot(hist, rel, i, r, base, pad);
      && base <= q < base + |rel| + Times(r.fanout, pad)
      && SameOutside(mem, mem[q := rel[i]], base, base + |rel| + Times(r.fanout, pad))
      && Scattered(mem[q := rel[i]], CountedUp(hist, Hash(r, rel[i].key)), rel, i + 1, r, base, pad)
  {
    var h := Hash(r, rel[i].key);
    var q := NextSlot(hist, rel, i, r, base, pad);
    assert ClusterAt(mem, hist, rel, i, r, base, pad, h);
    SelGrowsTo(rel, i, r, h);
    ClusterInside(rel, r, base, pad, h);
    var mem', hist', i' := mem[q := rel[i]], CountedUp(hist, h), i + 1;
    forall p: nat | p < r.fanout
      ensures ClusterAt(mem', hist', rel, i', r, base, pad, p)
    {
      ScatterOneCluster(mem, hist, rel, i, r, base, pad, p);
    }
  }

  lemma ScatterOneCluster(mem: seq<Tuple>, hist: seq<Bin>, rel: seq<Tuple>, i: nat, r: Radix, base: nat, pad: nat, p: nat)
    requires Scattered(mem, hist, rel, i, r, base, pad) && i < |rel| && p < r.fanout
    requires NextSlot(hist, rel, i, r, base, pad) < |mem|
    ensures ClusterAt(mem[NextSlot(hist, rel, i, r, base, pad) := rel[i]], CountedUp(hist, Hash(r, rel[i].key)), rel, i + 1, r, base, pad, p)
  {
    assert ClusterAt(mem, hist, rel, i, r, base, pad, p);
    SelGrowsTo(rel, i, r, p);
    if p == Hash(r, rel[i].key) {
      HoldsOneMore(mem, ClusterBase(rel, r, base, pad, p), Sel(rel[..i], r, p), rel[i]);
    } else {
      ScatterElsewhere(mem, hist, rel, i, r, base, pad, p);
    }
  }

  lemma ScatterElsewhere(mem: seq<Tuple>, hist: seq<Bin>, rel: seq<Tuple>, i: nat, r: Radix, base: nat, pad: nat, p: nat)
    requires Scattered(mem, hist, rel, i, r, base, pad) && i < |rel| && p < r.fanout && p != Hash(r, rel[i].key)
    ensures var q := NextSlot(hist, rel, i, r, base, pad);
      q < |mem| && HoldsAt(mem[q := rel[i]], ClusterBase(rel, r, base, pad, p), Sel(rel[..i], r, p))
  {
    var h := Hash(r, rel[i].key);
    assert ClusterAt(mem, hist, rel, i, r, base, pad, h) && ClusterAt(mem, hist, rel, i, r, base, pad, p);
    SelGrowsTo(rel, i, r, h);
    SelGrowsTo(rel, i, r, p);
    ClusterInside(rel, r, base, pad, h);
    if p < h {
      ClustersApart(rel, r, base, pad, p, h);
    } else {
      ClustersApart(rel, r, base, pad, h, p);
    }
    HoldsElsewhere(mem, ClusterBase(rel, r, base, pad, p), Sel(rel[..i], r, p), NextSlot(hist, rel, i, r, base, pad), rel[i]);
  }

  /** Counts, and exclusive prefix sums for the first `n` clusters. */
  ghost predicate Primed(hist: seq<Bin>, rel: seq<Tuple>, r: Radix, n: nat) {
    && Counts(hist, rel, r) && n <= r.fanout
    && forall p: nat :: p < n ==> hist[p].prefix == Below(rel, r, p)
  }

  lemma PrimeOne(hist: seq<Bin>, rel: seq<Tuple>, r: Radix, n: nat)
    requires Primed(hist, rel, r, n) && n < r.fanout
    ensures hist[n].count == |Sel(rel, r, n)|
    ensures Primed(hist[n := Bin(hist[n].count, Below(rel, r, n))], rel, r, n + 1)
  {
    var hist' := hist[n := Bin(hist[n].count, Below(rel, r, n))];
    assert Counts(hist', rel, r);
    forall p: nat | p < n + 1
      ensures hist'[p].prefix == Below(rel, r, p)
    {
    }
  }

  ghost predicate SameOutside(mem: seq<Tuple>, mem': seq<Tuple>, lo: nat, hi: nat) {
    |mem| == |mem'| && forall q: nat :: q < |mem| && (q < lo || hi <= q) ==> mem'[q] == mem[q]
  }

  method ExclusivePrefixes(rel: seq<Tuple>, hist: array<Bin>, r: Radix)
    requires Counts(hist[..], rel, r)
    modifies hist
    ensures Primed(hist[..], rel, r, r.fanout)
  {
    var accum := 0;
    for idx := 0 to r.fanout
      invariant accum == Below(rel, r, idx)
      invariant Primed(hist[..], rel, r, idx)
    {
      PrimeOne(hist[..], rel, r, idx);
      accum := accum + hist[idx].count;
      hist[idx] := Bin(hist[idx].count, accum - hist[idx].count);
    }
  }

  /** Each counter has moved from the first slot of its cluster to the end of it. */
  ghost predicate EndsCounted(hist: seq<Bin>, rel: seq<Tuple>, r: Radix) {
    && |hist| == r.fanout
    && forall p: nat :: p < r.fanout ==> hist[p] == Bin(|Sel(rel, r, p)|, Below(rel, r, p + 1))
  }

  /** `radix_cluster`, and the build loops of the histogram joins (with no padding). */
  method RadixCluster(rel: seq<Tuple>, out: array<Tuple>, hist: array<Bin>, r: Radix, base: nat, pad: nat)
    requires hist.Length == r.fanout && forall p :: 0 <= p < hist.Length ==> hist[p] == Bin(0, 0)
    requires base + |rel| + Times(r.fanout, pad) <= out.Length
    modifies out, hist
    ensures Partitioned(out[..], rel, r, base, pad)
    ensures EndsCounted(hist[..], rel, r)
    ensures SameOutside(old(out[..]), out[..], base, base + |rel| + Times(r.fanout, pad))
  {
    CountSlice(rel, hist, r);
    StoreSlice(rel, out, hist, r, base, pad);
  }

  /** The first half: all that a thread does that only builds histograms. */
  method CountSlice(rel: seq<Tuple>, hist: array<Bin>, r: Radix)
    requires hist.Length == r.fanout && forall p :: 0 <= p < hist.Length ==> hist[p] == Bin(0, 0)
    modifies hist
    ensures Primed(hist[..], rel, r, r.fanout)
  {
    CountTuples(rel, r, hist);
    ExclusivePrefixes(rel, hist, r);
  }

  /** The second half, from a histogram that this or another thread has built. */
  method StoreSlice(rel: seq<Tuple>, out: array<Tuple>, hist: array<Bin>, r: Radix, base: nat, pad: nat)
    requires Primed(hist[..], rel, r, r.fanout)
    requires base + |rel| + Times(r.fanout, pad) <= out.Length
    modifies out, hist
    ensures Partitioned(out[..], rel, r, base, pad)
    ensures EndsCounted(hist[..], rel, r)
    ensures SameOutside(old(out[..]), out[..], base, base + |rel| + Times(r.fanout, pad))
  {
    StartScatter(out[..], hist[..], rel, r, base, pad);
    StoreTuples(rel, out, hist, r, base, pad);
    EndScatter(out[..], hist[..], rel, r, base, pad);
  }

  method StoreTuples(rel: seq<Tuple>, out: array<Tuple>, hist: array<Bin>, r: Radix, base: nat, pad: nat)
    requires Scattered(out[..], hist[..], rel, 0, r, base, pad)
    modifies out, hist
    ensures Scattered(out[..], hist[..], rel, |rel|, r, base, pad)
    ensures SameOutside(old(out[..]), out[..], base, base + |rel| + Times(r.fanout, pad))
  {
    for idx := 0 to |rel|
      invariant Scattered(out[..], hist[..], rel, idx, r, base, pad)
      invariant SameOutside(old(out[..]), out[..], base, base + |rel| + Times(r.fanout, pad))
    {
      ghost var mem, bins := out[..], hist[..];
      ScatterOne(mem, bins, rel, idx, r, base, pad);
      var h := Hash(r, rel[idx].key);
      var slot := base + hist[h].prefix + Times(h, pad);
      out[slot] := rel[idx];
      hist[h] := Bin(hist[h].count, hist[h].prefix + 1);
      assert out[..] == mem[slot := rel[idx]];
      assert hist[..] == CountedUp(bins, h);
    }
  }

  lemma StartScatter(mem: seq<Tuple>, hist: seq<Bin>, rel: seq<Tuple>, r: Radix, base: nat, pad: nat)
    requires |hist| == r.fanout && base + |rel| + Times(r.fanout, pad) <= |mem|
    requires Primed(hist, rel, r, r.fanout)
    ensures Scattered(mem, hist, rel, 0, r, base, pad)
  {
    forall p: nat | p < r.fanout
      ensures ClusterAt(mem, hist, rel, 0, r, base, pad, p)
    {
      ClusterInside(rel, r, base, pad, p);
    }
  }

  lemma EndScatter(mem: seq<Tuple>, hist: seq<Bin>, rel: seq<Tuple>, r: Radix, base: nat, pad: nat)
    requires Scattered(mem, hist, rel, |rel|, r, base, pad)
    ensures Partitioned(mem, rel, r, base, pad) && EndsCounted(hist, rel, r)
  {
    assert rel[..|rel|] == rel;
    forall p: nat | p < r.fanout
      ensures hist[p] == Bin(|Sel(rel, r, p)|, Below(rel, r, p + 1))
      ensures HoldsAt(mem, ClusterBase(rel, r, base, pad, p), Sel(rel, r, p))
    {
      assert ClusterAt(mem, hist, rel, |rel|, r, base, pad, p);
    }
  }

  lemma PartIsShort(rel: seq<Tuple>, i: nat, r: Radix, p: nat)
    requires i <= |rel|
    ensures |Sel(rel[..i], r, p)| <= |Sel(rel, r, p)|
  {
    assert rel == rel[..i] + rel[i..];
    SelConcat(rel[..i], rel[i..], r, p);
  }
}
