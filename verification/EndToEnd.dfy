/** Both passes and the join phase together: whatever the form and the schedules of the passes, and
    whatever tasks which thread fetches, the totals are those of the nested-loop join of the two
    relations. */
module EndToEnd {
  import opened Bits
  import opened Relations
  import opened Runs
  import opened Partitioning
  import opened Accumulators
  import opened Tasks
  import opened JoinQueues
  import opened Passes
  import Swwcb
  import ConcurrentScatter

  // ----- the chunks of the threads -----

  function Chunk(rel: seq<Tuple>, threads: nat, share: nat, w: nat): seq<Tuple> {
    var from := Times(w, share);
    var to := if w + 1 == threads then |rel| else Times(w + 1, share);
    if from <= to <= |rel| then rel[from..to] else []
  }

  /** Equal shares, the last thread takes the rest. */
  function Chunks(rel: seq<Tuple>, threads: nat): seq<seq<Tuple>>
    requires 0 < threads
  {
    seq(threads, (w: nat) => Chunk(rel, threads, Share(|rel|, threads), w))
  }

  lemma SliceSnoc(rel: seq<Tuple>, a: nat, b: nat)
    requires a <= b <= |rel|
    ensures rel[..b] == rel[..a] + rel[a..b]
  {
  }

  lemma {:induction false} FirstChunks(rel: seq<Tuple>, threads: nat, n: nat)
    requires n < threads
    ensures Times(n, Share(|rel|, threads)) <= |rel|
    ensures Flatten(Chunks(rel, threads)[..n]) == rel[..Times(n, Share(|rel|, threads))]
  {
    var share := Share(|rel|, threads);
    TimesMonotone(n, threads, share);
    if n > 0 {
      FirstChunks(rel, threads, n - 1);
      Snoc(Chunks(rel, threads), n - 1);
      SliceSnoc(rel, Times(n - 1, share), Times(n, share));
      FlattenSnoc(Chunks(rel, threads)[..n - 1], Chunk(rel, threads, share, n - 1));
    }
  }

  /** Every tuple belongs to one thread. */
  lemma ChunksAreTheRelation(rel: seq<Tuple>, threads: nat)
    requires 0 < threads
    ensures Flatten(Chunks(rel, threads)) == rel
  {
    var share, n := Share(|rel|, threads), threads - 1;
    var cs := Chunks(rel, threads);
    FirstChunks(rel, threads, n);
    Snoc(cs, n);
    assert cs[..threads] == cs;
    FlattenSnoc(cs[..n], Chunk(rel, threads, share, n));
  }

  /** And no thread has much more than another: the shares are equal up to the rest of the division,
      which goes to the last thread. */
  lemma ChunksAreEven(rel: seq<Tuple>, threads: nat, w: nat)
    requires w < threads
    ensures |Chunks(rel, threads)| == threads
    ensures var cs := Chunks(rel, threads);
      w < threads - 1 ==> Even(|rel|, threads, |cs[w]|) && |cs[w]| <= |cs[threads - 1]| < |cs[w]| + threads
  {
    var share := Share(|rel|, threads);
    ShareIsEven(|rel|, threads);
    TimesMonotone(threads - 1, threads, share);
    TimesMonotone(w + 1, threads, share);
  }

  // ----- the arrays -----

  /** A block for every cluster of both passes behind the tuples is room enough for the first pass, and
      the padding cannot do with less. */
  lemma ArraysAreLargeEnough(rel: seq<Tuple>, r1: Radix, r2: Radix, t: nat, size: nat)
    ensures Fits(rel, r1, 0, Pad(r2, t), size) <==> |rel| + r1.fanout * r2.fanout * t <= size
  {
    TimesIsProduct(r2.fanout, t);
    TimesIsProduct(r1.fanout, Pad(r2, t));
    TimesAssociates(r1.fanout, r2.fanout, t);
  }

  lemma TimesAssociates(a: nat, b: nat, c: nat)
    ensures a * (b * c) == a * b * c
  {
  }

  // ----- the first pass -----

  /** All threads partition a relation, each its own share of it or (regulated) its own shares. */
  function FirstConfig(rel: seq<Tuple>, threads: nat, r1: Radix, r2: Radix, t: nat, size: nat): Swwcb.Config
    requires 0 < threads
  {
    ParallelPass(t, r1, Chunks(rel, threads), 0, Pad(r2, t), size)
  }

  ghost predicate FirstPass(rel: seq<Tuple>, threads: nat, r1: Radix, r2: Radix, t: nat, size: nat, run: PassRun) {
    && 0 < t && 0 < threads && Fits(rel, r1, 0, Pad(r2, t), size)
    && Ran(FirstConfig(rel, threads, r1, r2, t, size), Pad(r2, t), run)
  }

  /** What any run of it leaves. */
  lemma FirstPassPlaces(rel: seq<Tuple>, threads: nat, r1: Radix, r2: Radix, t: nat, size: nat, run: PassRun)
    requires FirstPass(rel, threads, r1, r2, t, size, run)
    ensures Placed(After(run), FirstLayout(rel, r2, t), r1)
  {
    var chunks := Chunks(rel, threads);
    ChunksAreTheRelation(rel, threads);
    ConcurrentScatter.ParallelEnough(t, r1, chunks, 0, Pad(r2, t), size, false);
    PassIsRight(FirstConfig(rel, threads, r1, r2, t, size), Pad(r2, t), run);
    ParallelCells(t, r1, chunks, 0, Pad(r2, t), size, After(run));
  }

  // ----- the second pass -----

  ghost predicate Ascending(ps: seq<nat>, n: nat) {
    && (forall k: nat :: k < |ps| ==> ps[k] < n)
    && (forall k: nat, k': nat :: k < k' < |ps| ==> ps[k] < ps[k'])
  }

  /** The second-pass job of a first-pass cluster: a slice of what the first pass left, to be
      partitioned in place. */
  ghost predicate IsJob(j: Job, mem1: seq<Tuple>, l: Layout, r1: Radix, p: nat) {
    j.base == At(l, r1, p) && j.rel == Slice(mem1, At(l, r1, p), Size(l, r1, p))
  }

  ghost predicate AreJobs(jobs: seq<Job>, mem1: seq<Tuple>, l: Layout, r1: Radix, ps: seq<nat>) {
    && |jobs| == |ps| && Ascending(ps, r1.fanout)
    && forall k: nat {:trigger jobs[k]} :: k < |jobs| ==> IsJob(jobs[k], mem1, l, r1, ps[k])
  }

  lemma JobIsCluster(j: Job, mem1: seq<Tuple>, l: Layout, r1: Radix, p: nat)
    requires Placed(mem1, l, r1) && p < r1.fanout && IsJob(j, mem1, l, r1, p)
    ensures j == Job(Sel(l.rel, r1, p), ClusterBase(l.rel, r1, l.base, l.pad, p))
  {
    SliceIsCluster(mem1, l, r1, p);
  }

  lemma LastRoom(rel: seq<Tuple>, r1: Radix, pad: nat, size: nat, p: nat)
    requires Fits(rel, r1, 0, pad, size) && p < r1.fanout
    ensures ClusterBase(rel, r1, 0, pad, p) + |Sel(rel, r1, p)| + pad <= size
  {
    ClusterInside(rel, r1, 0, pad, p);
  }

  lemma JobsAreSpaced(jobs: seq<Job>, mem1: seq<Tuple>, rel: seq<Tuple>, r1: Radix, r2: Radix, t: nat, ps: seq<nat>, size: nat)
    requires Placed(mem1, FirstLayout(rel, r2, t), r1) && AreJobs(jobs, mem1, FirstLayout(rel, r2, t), r1, ps)
    requires Fits(rel, r1, 0, Pad(r2, t), size)
    ensures Spaced(jobs, t, r2, size)
  {
    var l := FirstLayout(rel, r2, t);
    forall k: nat | k < |jobs|
      ensures Fits(jobs[k].rel, r2, jobs[k].base, t, size)
    {
      JobIsCluster(jobs[k], mem1, l, r1, ps[k]);
      LastRoom(rel, r1, Pad(r2, t), size, ps[k]);
    }
    forall k: nat, k': nat | k < k' < |jobs|
      ensures Fits(jobs[k].rel, r2, jobs[k].base, t, jobs[k'].base)
    {
      JobIsCluster(jobs[k], mem1, l, r1, ps[k]);
      JobIsCluster(jobs[k'], mem1, l, r1, ps[k']);
      FirstPassLeavesRoom(rel, r1, t, r2, ps[k], ps[k']);
    }
  }

  /** The tasks of the second pass, run by whichever threads at whatever times. */
  ghost predicate SecondPass(rel: seq<Tuple>, r1: Radix, r2: Radix, t: nat, size: nat, mem1: seq<Tuple>, ps: seq<nat>, jobs: seq<Job>, run: PassRun) {
    AreJobs(jobs, mem1, FirstLayout(rel, r2, t), r1, ps) && Ran(SerialPasses(t, r2, jobs, size), t, run)
  }

  /** Any run of it puts all its clusters in place. */
  lemma SecondPassPlaces(rel: seq<Tuple>, r1: Radix, r2: Radix, t: nat, size: nat, mem1: seq<Tuple>, ps: seq<nat>, jobs: seq<Job>, run: PassRun, p: nat)
    requires 0 < t && Placed(mem1, FirstLayout(rel, r2, t), r1) && Fits(rel, r1, 0, Pad(r2, t), size)
    requires SecondPass(rel, r1, r2, t, size, mem1, ps, jobs, run) && p in ps
    ensures SubPlaced(After(run), rel, r1, r2, t, p)
  {
    var k: nat :| k < |ps| && ps[k] == p;
    JobsAreSpaced(jobs, mem1, rel, r1, r2, t, ps, size);
    ConcurrentScatter.SerialEnough(t, r2, jobs, size);
    PassIsRight(SerialPasses(t, r2, jobs, size), t, run);
    SerialCells(t, r2, jobs, size, After(run), k);
    JobIsCluster(jobs[k], mem1, FirstLayout(rel, r2, t), r1, p);
  }

  // ----- skew handling: all threads on one cluster, after the second pass -----

  function SkewConfig(cluster: seq<Tuple>, threads: nat, r2: Radix, t: nat, base: nat, size: nat): Swwcb.Config
    requires 0 < threads
  {
    ParallelPass(t, r2, Chunks(cluster, threads), base, t, size)
  }

  /** A pass over one cluster puts it in place. */
  lemma SkewPassPlaces(rel: seq<Tuple>, threads: nat, r1: Radix, r2: Radix, t: nat, p: nat, size: nat, run: PassRun)
    requires 0 < t && 0 < threads && p < r1.fanout && Fits(rel, r1, 0, Pad(r2, t), size)
    requires var l := SubLayout(rel, r1, r2, t, p); Ran(SkewConfig(l.rel, threads, r2, t, l.base, size), t, run)
    ensures SubPlaced(After(run), rel, r1, r2, t, p)
  {
    var l := SubLayout(rel, r1, r2, t, p);
    ChunksAreTheRelation(l.rel, threads);
    LastRoom(rel, r1, Pad(r2, t), size, p);
    ConcurrentScatter.ParallelEnough(t, r2, Chunks(l.rel, threads), l.base, t, size, false);
    PassIsRight(SkewConfig(l.rel, threads, r2, t, l.base, size), t, run);
    ParallelCells(t, r2, Chunks(l.rel, threads), l.base, t, size, After(run));
  }

  /** The slots of one sub-partition lie outside what a pass over another cluster touches. */
  lemma SubClusterOutside(rel: seq<Tuple>, r1: Radix, r2: Radix, t: nat, p: nat, p': nat, q: nat)
    requires p != p' && q < r2.fanout
    ensures var l, l' := SubLayout(rel, r1, r2, t, p), SubLayout(rel, r1, r2, t, p');
      || At(l', r2, q) + Size(l', r2, q) + t <= l.base
      || l.base + |l.rel| + Times(r2.fanout, t) <= At(l', r2, q)
  {
    var l' := SubLayout(rel, r1, r2, t, p');
    ClusterInside(l'.rel, r2, l'.base, t, q);
    if p' < p {
      ClustersApart(rel, r1, 0, Pad(r2, t), p', p);
    } else {
      ClustersApart(rel, r1, 0, Pad(r2, t), p, p');
    }
  }

  /** A pass over part of the array keeps what lies outside of it. */
  lemma PassKeeps(rel: seq<Tuple>, threads: nat, r2: Radix, t: nat, base: nat, size: nat, run: PassRun, at: nat, part: seq<Tuple>)
    requires 0 < t && 0 < threads && Fits(rel, r2, base, t, size)
    requires Ran(SkewConfig(rel, threads, r2, t, base, size), t, run) && HoldsAt(Before(run), at, part)
    requires at + |part| + t <= base || base + |rel| + Times(r2.fanout, t) <= at
    ensures HoldsAt(After(run), at, part)
  {
    var chunks := Chunks(rel, threads);
    ChunksAreTheRelation(rel, threads);
    ConcurrentScatter.ParallelEnough(t, r2, chunks, base, t, size, false);
    PassIsRight(SkewConfig(rel, threads, r2, t, base, size), t, run);
    var mem, mem' := Before(run), After(run);
    forall q: nat | at <= q < at + |part|
      ensures q < |mem'| == |mem| && mem'[q] == mem[q]
    {
      ParallelPassStaysInside(t, r2, chunks, base, t, size, q);
    }
    assert mem'[at..at + |part|] == mem[at..at + |part|];
  }

  lemma SkewPassKeepsCell(rel: seq<Tuple>, threads: nat, r1: Radix, r2: Radix, t: nat, p: nat, p': nat, size: nat, run: PassRun, q: nat)
    requires 0 < t && 0 < threads && p < r1.fanout && p != p' && Fits(rel, r1, 0, Pad(r2, t), size) && q < r2.fanout
    requires var l := SubLayout(rel, r1, r2, t, p); Ran(SkewConfig(l.rel, threads, r2, t, l.base, size), t, run)
    requires var l' := SubLayout(rel, r1, r2, t, p'); HoldsAt(Before(run), At(l', r2, q), Sel(l'.rel, r2, q))
    ensures var l' := SubLayout(rel, r1, r2, t, p'); HoldsAt(After(run), At(l', r2, q), Sel(l'.rel, r2, q))
  {
    var l, l' := SubLayout(rel, r1, r2, t, p), SubLayout(rel, r1, r2, t, p');
    LastRoom(rel, r1, Pad(r2, t), size, p);
    SubClusterOutside(rel, r1, r2, t, p, p', q);
    PassKeeps(l.rel, threads, r2, t, l.base, size, run, At(l', r2, q), Sel(l'.rel, r2, q));
  }

  /** And leaves every other sub-partition as it is. */
  lemma SkewPassKeeps(rel: seq<Tuple>, threads: nat, r1: Radix, r2: Radix, t: nat, p: nat, p': nat, size: nat, run: PassRun)
    requires 0 < t && 0 < threads && p < r1.fanout && p != p' && Fits(rel, r1, 0, Pad(r2, t), size)
    requires var l := SubLayout(rel, r1, r2, t, p); Ran(SkewConfig(l.rel, threads, r2, t, l.base, size), t, run)
    requires SubPlaced(Before(run), rel, r1, r2, t, p')
    ensures SubPlaced(After(run), rel, r1, r2, t, p')
  {
    var l' := SubLayout(rel, r1, r2, t, p');
    forall q: nat | q < r2.fanout
      ensures HoldsAt(After(run), ClusterBase(l'.rel, r2, l'.base, l'.pad, q), Sel(l'.rel, r2, q))
    {
      assert HoldsAt(Before(run), ClusterBase(l'.rel, r2, l'.base, l'.pad, q), Sel(l'.rel, r2, q));
      SkewPassKeepsCell(rel, threads, r1, r2, t, p, p', size, run, q);
    }
  }

  /** The pass of all threads over one big cluster, from a slice of what the first pass left. */
  ghost predicate SkewPass(rel: seq<Tuple>, threads: nat, r1: Radix, r2: Radix, t: nat, size: nat, mem1: seq<Tuple>, p: nat, run: PassRun)
    requires 0 < threads
  {
    var l, from := SubLayout(rel, r1, r2, t, p), FirstLayout(rel, r2, t);
    Ran(SkewConfig(Slice(mem1, At(from, r1, p), Size(from, r1, p)), threads, r2, t, l.base, size), t, run)
  }

  ghost function MemAfter(mem2: seq<Tuple>, runs: seq<PassRun>, k: nat): seq<Tuple>
    requires k <= |runs|
  {
    if k == 0 then mem2 else After(runs[k - 1])
  }

  /** The `k`-th of these passes works on the array as the one before left it. */
  ghost predicate OneSkewPass(rel: seq<Tuple>, threads: nat, r1: Radix, r2: Radix, t: nat, size: nat,
                              mem1: seq<Tuple>, mem2: seq<Tuple>, bs: seq<nat>, runs: seq<PassRun>, k: nat)
    requires 0 < threads && k < |bs| == |runs|
  {
    && bs[k] < r1.fanout
    && SkewPass(rel, threads, r1, r2, t, size, mem1, bs[k], runs[k])
    && Before(runs[k]) == MemAfter(mem2, runs, k)
  }

  /** Passes over the big clusters `bs`, one after the other. */
  ghost predicate SkewPasses(rel: seq<Tuple>, threads: nat, r1: Radix, r2: Radix, t: nat, size: nat,
                             mem1: seq<Tuple>, mem2: seq<Tuple>, bs: seq<nat>, runs: seq<PassRun>) {
    && |runs| == |bs| && 0 < threads
    && forall k: nat {:trigger OneSkewPass(rel, threads, r1, r2, t, size, mem1, mem2, bs, runs, k)} :: k < |bs| ==>
         OneSkewPass(rel, threads, r1, r2, t, size, mem1, mem2, bs, runs, k)
  }

  /** One of these passes places its own cluster and keeps those placed before. */
  lemma SkewPassAdds(rel: seq<Tuple>, threads: nat, r1: Radix, r2: Radix, t: nat, size: nat, mem1: seq<Tuple>, b: nat, run: PassRun, p: nat)
    requires 0 < t && 0 < threads && Fits(rel, r1, 0, Pad(r2, t), size) && Placed(mem1, FirstLayout(rel, r2, t), r1)
    requires SkewPass(rel, threads, r1, r2, t, size, mem1, b, run) && b < r1.fanout
    requires p == b || SubPlaced(Before(run), rel, r1, r2, t, p)
    ensures SubPlaced(After(run), rel, r1, r2, t, p)
  {
    SliceIsCluster(mem1, FirstLayout(rel, r2, t), r1, b);
    if p == b {
      SkewPassPlaces(rel, threads, r1, r2, t, b, size, run);
    } else {
      SkewPassKeeps(rel, threads, r1, r2, t, b, p, size, run);
    }
  }

  /** The `k`-th of them places its cluster and keeps what is in place. */
  lemma OneMorePlaced(rel: seq<Tuple>, threads: nat, r1: Radix, r2: Radix, t: nat, size: nat,
                      mem1: seq<Tuple>, mem2: seq<Tuple>, bs: seq<nat>, runs: seq<PassRun>, k: nat, p: nat)
    requires 0 < t && Fits(rel, r1, 0, Pad(r2, t), size) && Placed(mem1, FirstLayout(rel, r2, t), r1)
    requires SkewPasses(rel, threads, r1, r2, t, size, mem1, mem2, bs, runs)
    requires k < |bs| && (p == bs[k] || SubPlaced(MemAfter(mem2, runs, k), rel, r1, r2, t, p))
    ensures SubPlaced(MemAfter(mem2, runs, k + 1), rel, r1, r2, t, p)
  {
    assert OneSkewPass(rel, threads, r1, r2, t, size, mem1, mem2, bs, runs, k);
    SkewPassAdds(rel, threads, r1, r2, t, size, mem1, bs[k], runs[k], p);
  }

  /** Is cluster `p` in place after the first passes over big clusters? */
  ghost function PlacedAfter(rel: seq<Tuple>, r1: Radix, r2: Radix, t: nat, mem2: seq<Tuple>, runs: seq<PassRun>, p: nat): nat -> bool {
    (i: nat) => i <= |runs| && SubPlaced(MemAfter(mem2, runs, i), rel, r1, r2, t, p)
  }

  lemma PlacedGoesUp(rel: seq<Tuple>, threads: nat, r1: Radix, r2: Radix, t: nat, size: nat,
                     mem1: seq<Tuple>, mem2: seq<Tuple>, bs: seq<nat>, runs: seq<PassRun>, k: nat, p: nat)
    requires 0 < t && Fits(rel, r1, 0, Pad(r2, t), size) && Placed(mem1, FirstLayout(rel, r2, t), r1)
    requires SkewPasses(rel, threads, r1, r2, t, size, mem1, mem2, bs, runs) && k < |bs|
    ensures GoesUp(PlacedAfter(rel, r1, r2, t, mem2, runs, p), k)
  {
    if PlacedAfter(rel, r1, r2, t, mem2, runs, p)(k) {
      OneMorePlaced(rel, threads, r1, r2, t, size, mem1, mem2, bs, runs, k, p);
    }
  }

  /** What is in place before some of them stays in place. */
  lemma StaysPlaced(rel: seq<Tuple>, threads: nat, r1: Radix, r2: Radix, t: nat, size: nat,
                    mem1: seq<Tuple>, mem2: seq<Tuple>, bs: seq<nat>, runs: seq<PassRun>, k: nat, p: nat)
    requires 0 < t && Fits(rel, r1, 0, Pad(r2, t), size) && Placed(mem1, FirstLayout(rel, r2, t), r1)
    requires SkewPasses(rel, threads, r1, r2, t, size, mem1, mem2, bs, runs)
    requires k <= |bs| && PlacedAfter(rel, r1, r2, t, mem2, runs, p)(k)
    ensures PlacedAfter(rel, r1, r2, t, mem2, runs, p)(|bs|)
  {
    forall i: nat | k <= i < |bs|
      ensures GoesUp(PlacedAfter(rel, r1, r2, t, mem2, runs, p), i)
    {
      PlacedGoesUp(rel, threads, r1, r2, t, size, mem1, mem2, bs, runs, i, p);
    }
    Upwards(PlacedAfter(rel, r1, r2, t, mem2, runs, p), k, |bs|);
  }

  /** After all of them, in whatever order their tasks were fetched, their clusters are in place. */
  lemma SkewPassesPlace(rel: seq<Tuple>, threads: nat, r1: Radix, r2: Radix, t: nat, size: nat,
                        mem1: seq<Tuple>, mem2: seq<Tuple>, bs: seq<nat>, runs: seq<PassRun>, p: nat)
    requires 0 < t && Fits(rel, r1, 0, Pad(r2, t), size) && Placed(mem1, FirstLayout(rel, r2, t), r1)
    requires SkewPasses(rel, threads, r1, r2, t, size, mem1, mem2, bs, runs) && p in bs
    ensures SubPlaced(MemAfter(mem2, runs, |bs|), rel, r1, r2, t, p)
  {
    var k: nat :| k < |bs| && bs[k] == p;
    OneMorePlaced(rel, threads, r1, r2, t, size, mem1, mem2, bs, runs, k, p);
    StaysPlaced(rel, threads, r1, r2, t, size, mem1, mem2, bs, runs, k + 1, p);
  }

  // ----- one relation through both passes -----

  /** The first pass, the second pass over the clusters `ps` and the passes over the big ones `bs`. */
  datatype Side = Side(size: nat, first: PassRun, jobs: seq<Job>, second: PassRun, skews: seq<PassRun>)

  ghost predicate Partitions(rel: seq<Tuple>, x: Join, ps: seq<nat>, bs: seq<nat>, side: Side) {
    && FirstPass(rel, x.builders, x.r1, x.r2, x.t, side.size, side.first)
    && SecondPass(rel, x.r1, x.r2, x.t, side.size, After(side.first), ps, side.jobs, side.second)
    && SkewPasses(rel, x.builders, x.r1, x.r2, x.t, side.size, After(side.first), After(side.second), bs, side.skews)
  }

  ghost function Final(side: Side): seq<Tuple> { MemAfter(After(side.second), side.skews, |side.skews|) }

  lemma SidePlaced(rel: seq<Tuple>, x: Join, ps: seq<nat>, bs: seq<nat>, side: Side, p: nat)
    requires Partitions(rel, x, ps, bs, side) && (p in ps || p in bs)
    ensures SubPlaced(Final(side), rel, x.r1, x.r2, x.t, p)
  {
    FirstPassPlaces(rel, x.builders, x.r1, x.r2, x.t, side.size, side.first);
    if p in ps {
      SecondPassPlaces(rel, x.r1, x.r2, x.t, side.size, After(side.first), ps, side.jobs, side.second, p);
      StaysPlaced(rel, x.builders, x.r1, x.r2, x.t, side.size, After(side.first), After(side.second), bs, side.skews, 0, p);
    } else {
      SkewPassesPlace(rel, x.builders, x.r1, x.r2, x.t, side.size, After(side.first), After(side.second), bs, side.skews, p);
    }
  }

  /** In the asymmetric form the probe side stays as the first pass leaves it. */
  lemma ProbeSidePlaced(x: Join, size: nat, run: PassRun, p: nat)
    requires FirstPass(x.S, x.builders, x.r1, x.r2, x.t, size, run) && p < x.r1.fanout
    ensures HoldsAt(After(run), At(FirstLayout(x.S, x.r2, x.t), x.r1, p), Sel(x.S, x.r1, p))
  {
    FirstPassPlaces(x.S, x.builders, x.r1, x.r2, x.t, size, run);
    assert HoldsAt(After(run), ClusterBase(x.S, x.r1, 0, Pad(x.r2, x.t), p), Sel(x.S, x.r1, p));
  }

  // ----- the joins -----

  /** The symmetric join: both relations go through both passes, with or without write-combining
      buffers and skew handling.  Whatever the interleaving of the stores in any pass, whoever
      partitions and joins which task, the totals of all threads are those of the nested-loop join. */
  lemma TwoPassJoinIsRight(x: Join, ps: seq<nat>, bs: seq<nat>, r: Side, s: Side, fetched: seq<seq<Task>>)
    requires x.pair && 0 < x.probers && FirstLevel(x, ps, bs)
    requires Partitions(x.R, x, ps, bs, r) && Partitions(x.S, x, ps, bs, s)
    requires multiset(FlattenTasks(fetched)) == multiset(JoinQueue(x, ps, bs))
    ensures IsJoin(AllTotals(fetched, Final(r), Final(s)), x.R, x.S)
  {
    forall p: nat | p in ps || p in bs
      ensures InPlace(x, Final(r), Final(s), p)
    {
      SidePlaced(x.R, x, ps, bs, r, p);
      SidePlaced(x.S, x, ps, bs, s, p);
    }
    TheJoinIsRight(x, Final(r), Final(s), ps, bs, fetched);
  }

  /** The asymmetric join: the build side goes through both passes, the probe side only through the
      first one, in any form, regulated or not. */
  lemma AsymmetricJoinIsRight(x: Join, ps: seq<nat>, bs: seq<nat>, r: Side, sSize: nat, s: PassRun, fetched: seq<seq<Task>>)
    requires !x.pair && 0 < x.probers && FirstLevel(x, ps, bs)
    requires Partitions(x.R, x, ps, bs, r) && FirstPass(x.S, x.builders, x.r1, x.r2, x.t, sSize, s)
    requires multiset(FlattenTasks(fetched)) == multiset(JoinQueue(x, ps, bs))
    ensures IsJoin(AllTotals(fetched, Final(r), After(s)), x.R, x.S)
  {
    forall p: nat | p in ps || p in bs
      ensures InPlace(x, Final(r), After(s), p)
    {
      assert Dispatched(x, ps, bs, p);
      SidePlaced(x.R, x, ps, bs, r, p);
      ProbeSidePlaced(x, sSize, s, p);
    }
    TheJoinIsRight(x, Final(r), After(s), ps, bs, fetched);
  }
}
