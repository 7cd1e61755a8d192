/** Histograms, prefix sums, and the output offsets that threads derive from each other's. */
module Offsets {
  import opened Bits
  import opened Relations

  /** How many tuples hash below cluster `p`. */
  function Below(rel: seq<Tuple>, r: Radix, p: nat): nat {
    if p == 0 then 0 else Below(rel, r, p - 1) + |Sel(rel, r, p - 1)|
  }

  lemma {:induction false} BelowSnoc(rel: seq<Tuple>, x: Tuple, r: Radix, p: nat)
    ensures Below(rel + [x], r, p) == Below(rel, r, p) + (if Hash(r, x.key) < p then 1 else 0)
  {
    if p > 0 {
      BelowSnoc(rel, x, r, p - 1);
      SelSnoc(rel, x, r, p - 1);
    }
  }

  /** Every tuple belongs to one cluster. */
  lemma {:induction false} BelowAll(rel: seq<Tuple>, r: Radix)
    ensures Below(rel, r, r.fanout) == |rel|
  {
    if rel == [] {
      BelowNothing(rel, r, r.fanout);
    } else {
      BelowAll(rel[..|rel| - 1], r);
      BelowSnoc(rel[..|rel| - 1], rel[|rel| - 1], r, r.fanout);
      assert rel == rel[..|rel| - 1] + [rel[|rel| - 1]];
    }
  }

  lemma {:induction false} BelowNothing(rel: seq<Tuple>, r: Radix, p: nat)
    requires rel == []
    ensures Below(rel, r, p) == 0
  {
    if p > 0 {
      BelowNothing(rel, r, p - 1);
    }
  }

  lemma {:induction false} BelowMonotone(rel: seq<Tuple>, r: Radix, p: nat, p': nat)
    requires p <= p'
    ensures Below(rel, r, p) <= Below(rel, r, p')
    ensures p < p' ==> Below(rel, r, p) + |Sel(rel, r, p)| <= Below(rel, r, p')
  {
    if p < p' {
      BelowMonotone(rel, r, p, p' - 1);
    }
  }

  lemma BelowConcat(a: seq<Tuple>, b: seq<Tuple>, r: Radix, p: nat)
    ensures Below(a + b, r, p) == Below(a, r, p) + Below(b, r, p)
  {
    if p > 0 {
      BelowConcat(a, b, r, p - 1);
      SelConcat(a, b, r, p - 1);
    }
  }

  // ----- the histogram of a thread -----

  /** Two neighbouring counters of a histogram: places 2p and 2p + 1 of the array. */
  datatype Bin = Bin(count: nat, prefix: nat)

  ghost predicate Counts(hist: seq<Bin>, rel: seq<Tuple>, r: Radix) {
    && |hist| == r.fanout
    && forall p: nat :: p < r.fanout ==> hist[p].count == |Sel(rel, r, p)|
  }

  /** The count of each cluster, and the inclusive prefix sum. */
  ghost predicate IsHistogram(hist: seq<Bin>, rel: seq<Tuple>, r: Radix) {
    && Counts(hist, rel, r)
    && forall p: nat :: p < r.fanout ==> hist[p].prefix == Below(rel, r, p + 1)
  }

  lemma CountOne(hist: seq<Bin>, rel: seq<Tuple>, x: Tuple, r: Radix)
    requires Counts(hist, rel, r)
    ensures var h := Hash(r, x.key);
      Counts(hist[h := Bin(hist[h].count + 1, hist[h].prefix)], rel + [x], r)
  {
    forall p: nat | p < r.fanout
      ensures |Sel(rel + [x], r, p)| == |Sel(rel, r, p)| + (if p == Hash(r, x.key) then 1 else 0)
    {
      SelSnoc(rel, x, r, p);
    }
  }

  method CountTuples(rel: seq<Tuple>, r: Radix, hist: array<Bin>)
    requires hist.Length == r.fanout && forall p :: 0 <= p < hist.Length ==> hist[p] == Bin(0, 0)
    modifies hist
    ensures Counts(hist[..], rel, r)
  {
    for idx := 0 to |rel|
      invariant Counts(hist[..], rel[..idx], r)
    {
      var h := Hash(r, rel[idx].key);
      CountOne(hist[..], rel[..idx], rel[idx], r);
      Snoc(rel, idx);
      hist[h] := Bin(hist[h].count + 1, hist[h].prefix);
    }
    assert rel[..|rel|] == rel;
  }

  ghost predicate Prefixed(hist: seq<Bin>, rel: seq<Tuple>, r: Radix, n: nat) {
    && Counts(hist, rel, r) && n <= r.fanout
    && forall p: nat :: p < n ==> hist[p].prefix == Below(rel, r, p + 1)
  }

  lemma PrefixOne(hist: seq<Bin>, rel: seq<Tuple>, r: Radix, n: nat)
    requires Prefixed(hist, rel, r, n) && n < r.fanout
    ensures hist[n].count == |Sel(rel, r, n)|
    ensures Prefixed(hist[n := Bin(hist[n].count, Below(rel, r, n + 1))], rel, r, n + 1)
  {
  }

  method LocalHistogram(rel: seq<Tuple>, r: Radix, hist: array<Bin>)
    requires hist.Length == r.fanout && forall p :: 0 <= p < hist.Length ==> hist[p] == Bin(0, 0)
    modifies hist
    ensures IsHistogram(hist[..], rel, r)
  {
    CountTuples(rel, r, hist);
    var accum := 0;
    for idx := 0 to r.fanout
      invariant accum == Below(rel, r, idx)
      invariant Prefixed(hist[..], rel, r, idx)
    {
      PrefixOne(hist[..], rel, r, idx);
      accum := accum + hist[idx].count;
      hist[idx] := Bin(hist[idx].count, accum);
    }
  }

  // ----- the output offsets of a thread -----

  /** Where thread `w` starts in cluster `p`, over the first `n` chunks: inclusive prefix sums of the
      earlier threads, and the prefix sums shifted by one cluster of the others. */
  function OffsetOver(chunks: seq<seq<Tuple>>, r: Radix, n: nat, w: nat, p: nat): nat
    requires n <= |chunks|
  {
    if n == 0 then 0
    else OffsetOver(chunks, r, n - 1, w, p) + Below(chunks[n - 1], r, if n - 1 < w then p + 1 else p)
  }

  function Start(chunks: seq<seq<Tuple>>, r: Radix, w: nat, p: nat): nat {
    OffsetOver(chunks, r, |chunks|, w, p)
  }

  ghost predicate Offsets(out: seq<nat>, chunks: seq<seq<Tuple>>, r: Radix, w: nat, n: nat) {
    && |out| == r.fanout && n <= |chunks|
    && forall p: nat :: p < r.fanout ==> out[p] == OffsetOver(chunks, r, n, w, p)
  }

  /** One inner loop of the offset computation of thread `tid`: it adds the prefix sums of thread
      `idx`, inclusive ones if `idx` comes before, shifted ones if not. */
  method AddPrefixes(idx: nat, tid: nat, hist: array<Bin>, out: array<nat>, r: Radix, ghost chunks: seq<seq<Tuple>>)
    requires idx < |chunks| && IsHistogram(hist[..], chunks[idx], r)
    requires Offsets(out[..], chunks, r, tid, idx)
    modifies out
    ensures Offsets(out[..], chunks, r, tid, idx + 1)
  {
    var first := if idx < tid then 0 else 1;
    for jdx := first to r.fanout
      invariant forall p: nat :: p < r.fanout ==>
        out[p] == OffsetOver(chunks, r, idx, tid, p)
                  + (if p < jdx then Below(chunks[idx], r, if idx < tid then p + 1 else p) else 0)
    {
      assert hist[..][jdx - first].prefix == Below(chunks[idx], r, jdx - first + 1);
      out[jdx] := out[jdx] + hist[jdx - first].prefix;
    }
  }

  method OutputOffset(tid: nat, hists: seq<array<Bin>>, out: array<nat>, r: Radix, ghost chunks: seq<seq<Tuple>>)
    requires |hists| == |chunks| && tid < |chunks|
    requires forall w: nat :: w < |hists| ==> IsHistogram(hists[w][..], chunks[w], r)
    requires out.Length == r.fanout && forall p :: 0 <= p < out.Length ==> out[p] == 0
    modifies out
    ensures forall p: nat :: p < r.fanout ==> out[p] == Start(chunks, r, tid, p)
  {
    for idx := 0 to tid
      invariant Offsets(out[..], chunks, r, tid, idx)
    {
      AddPrefixes(idx, tid, hists[idx], out, r, chunks);
    }
    for idx := tid to |hists|
      invariant Offsets(out[..], chunks, r, tid, idx)
    {
      AddPrefixes(idx, tid, hists[idx], out, r, chunks);
    }
    assert forall p: nat :: p < r.fanout ==> out[..][p] == OffsetOver(chunks, r, |chunks|, tid, p);
  }

  // ----- the offsets tile the output -----

  lemma {:induction false} OffsetNextThread(chunks: seq<seq<Tuple>>, r: Radix, n: nat, w: nat, p: nat)
    requires n <= |chunks| && w < |chunks|
    ensures OffsetOver(chunks, r, n, w + 1, p)
         == OffsetOver(chunks, r, n, w, p) + (if w < n then |Sel(chunks[w], r, p)| else 0)
  {
    if n > 0 {
      OffsetNextThread(chunks, r, n - 1, w, p);
    }
  }

  /** Thread `w + 1` starts where thread `w` ends. */
  lemma StartNextThread(chunks: seq<seq<Tuple>>, r: Radix, w: nat, p: nat)
    requires w < |chunks|
    ensures Start(chunks, r, w + 1, p) == Start(chunks, r, w, p) + |Sel(chunks[w], r, p)|
  {
    OffsetNextThread(chunks, r, |chunks|, w, p);
  }

  lemma {:induction false} OffsetNextCluster(chunks: seq<seq<Tuple>>, r: Radix, n: nat, w: nat, p: nat)
    requires n <= |chunks| && n <= w
    ensures OffsetOver(chunks, r, n, w, p) == OffsetOver(chunks, r, n, 0, p + 1)
  {
    if n > 0 {
      OffsetNextCluster(chunks, r, n - 1, w, p);
    }
  }

  /** The first thread starts in a cluster where the last thread ended in the cluster before. */
  lemma StartNextCluster(chunks: seq<seq<Tuple>>, r: Radix, p: nat)
    ensures Start(chunks, r, |chunks|, p) == Start(chunks, r, 0, p + 1)
  {
    OffsetNextCluster(chunks, r, |chunks|, |chunks|, p);
  }

  lemma {:induction false} StartThreads(chunks: seq<seq<Tuple>>, r: Radix, w: nat, w': nat, p: nat)
    requires w <= w' <= |chunks|
    ensures Start(chunks, r, w, p) <= Start(chunks, r, w', p)
    ensures w < w' ==> Start(chunks, r, w, p) + |Sel(chunks[w], r, p)| <= Start(chunks, r, w', p)
  {
    if w < w' {
      StartThreads(chunks, r, w, w' - 1, p);
      StartNextThread(chunks, r, w' - 1, p);
    }
  }

  lemma {:induction false} StartClusters(chunks: seq<seq<Tuple>>, r: Radix, p: nat, p': nat)
    requires p <= p'
    ensures Start(chunks, r, 0, p) <= Start(chunks, r, 0, p')
    ensures p < p' ==> Start(chunks, r, |chunks|, p) <= Start(chunks, r, 0, p')
  {
    if p < p' {
      StartClusters(chunks, r, p, p' - 1);
      StartNextCluster(chunks, r, p' - 1);
      StartThreads(chunks, r, 0, |chunks|, p' - 1);
    }
  }

  /** Cluster `p` of the whole output starts after all tuples of lower clusters. */
  lemma {:induction false} StartIsBelow(chunks: seq<seq<Tuple>>, r: Radix, n: nat, p: nat)
    requires n <= |chunks|
    ensures OffsetOver(chunks, r, n, 0, p) == Below(Flatten(chunks[..n]), r, p)
  {
    if n == 0 {
      BelowNothing(Flatten(chunks[..n]), r, p);
    } else {
      StartIsBelow(chunks, r, n - 1, p);
      Snoc(chunks, n - 1);
      FlattenSnoc(chunks[..n - 1], chunks[n - 1]);
      BelowConcat(Flatten(chunks[..n - 1]), chunks[n - 1], r, p);
    }
  }

  lemma FirstStart(chunks: seq<seq<Tuple>>, r: Radix, p: nat)
    ensures Start(chunks, r, 0, p) == Below(Flatten(chunks), r, p)
  {
    StartIsBelow(chunks, r, |chunks|, p);
    assert chunks[..|chunks|] == chunks;
  }
}
