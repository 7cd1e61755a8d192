/** The memory of the join phase: the tables of every queued task fit the share of a thread, and tasks
    that run at the same time write to different parts of the partitioned array, unless they are
    pieces of one task. */
module JoinMemory {
  import opened Bits
  import opened Relations
  import opened Partitioning
  import opened Tasks
  import opened TaskCreation
  import opened JoinQueues
  import opened IntermediateBuffers

  // ----- where a join task comes from -----

  lemma {:induction false} QueuedFrom(f: nat -> seq<Task>, ps: seq<nat>, t: Task) returns (p: nat)
    requires t in QueueOf(f, ps)
    ensures p in ps && t in f(p)
  {
    var n := |ps| - 1;
    if t in f(ps[n]) {
      p := ps[n];
    } else {
      p := QueuedFrom(f, ps[..n], t);
    }
  }

  /** The build side of a join task is a nonempty cluster of a first-pass cluster. */
  ghost predicate BuildSideOf(x: Join, t: Task, p: nat, q: nat) {
    && q < x.r2.fanout && 0 < t.rNum
    && t.rAt == At(SubLayout(x.R, x.r1, x.r2, x.t, p), x.r2, q) && t.rNum == Size(SubLayout(x.R, x.r1, x.r2, x.t, p), x.r2, q)
  }

  lemma SkewedFrom(x: Join, p: nat, t: Task) returns (q: nat)
    requires 0 < x.probers && t in Skewed(x)(p)
    ensures BuildSideOf(x, t, p, q)
  {
    if t in Created(SubTasks(x, p), x.pair, Small(x.limit1), x.r2.fanout) {
      q := CreatedFrom(SubTasks(x, p), x.pair, Small(x.limit1), x.r2.fanout, t);
    } else {
      q := SplitFrom(SubTasks(x, p), x.pair, x.limit1, x.probers, x.r2.fanout, t);
    }
  }

  lemma JoinTaskFrom(x: Join, ps: seq<nat>, bs: seq<nat>, t: Task) returns (p: nat, q: nat)
    requires 0 < x.probers && t in JoinQueue(x, ps, bs)
    ensures (p in ps || p in bs) && BuildSideOf(x, t, p, q)
  {
    if t in QueueOf(Plain(x), ps) {
      p := QueuedFrom(Plain(x), ps, t);
      q := CreatedFrom(SubTasks(x, p), x.pair, All, x.r2.fanout, t);
    } else {
      p := QueuedFrom(Skewed(x), bs, t);
      q := SkewedFrom(x, p, t);
    }
  }

  // ----- tables -----

  /** The largest cluster of the build side that skew handling has seen. */
  function SkewMost(x: Join, bs: seq<nat>): nat {
    if bs == [] then 0 else Larger(SkewMost(x, bs[..|bs| - 1]), Most(SubTasks(x, bs[|bs| - 1]), x.r2.fanout))
  }

  lemma {:induction false} SkewMostBounds(x: Join, bs: seq<nat>, t: Task)
    requires 0 < x.probers && t in QueueOf(Skewed(x), bs)
    ensures t.rNum <= SkewMost(x, bs)
  {
    var n := |bs| - 1;
    if t in Skewed(x)(bs[n]) {
      var q := SkewedFrom(x, bs[n], t);
      MostBounds(SubTasks(x, bs[n]), x.r2.fanout, q);
    } else {
      SkewMostBounds(x, bs[..n], t);
    }
  }

  /** What threads found in the second pass, and what thread 0 found with skew handling on top of its
      own: the maximum that they share. */
  function Shared(x: Join, maxes: seq<nat>, bs: seq<nat>): nat {
    Larger(Larger(if maxes == [] then 0 else maxes[0], SkewMost(x, bs)), MaxOf(maxes))
  }

  ghost predicate TablesFitFor(n: nat, max: nat, scale: nat, bkt: nat, cap: nat)
    requires 0 < n && 0 < max && 0 < cap
  {
    && BcBytes(n) <= Given(max, scale) && LpBytes(n) <= Given(max, scale) && HrBytes(n) <= Given(max, scale)
    && ScBytes(n, bkt, cap) <= GivenForSc(max, scale, bkt, cap)
    && (max > 8 ==> HroBytes(n) <= Given(max, 2))
  }

  /** The shared maximum bounds the build side of every join task, whichever phase has added it; so the
      tables of every task fit what a thread is given, with a scaling factor of at least 2. */
  lemma EveryTaskFits(x: Join, ps: seq<nat>, bs: seq<nat>, queue: seq<Task>, maxes: seq<nat>, scale: nat, bkt: nat, cap: nat, t: Task)
    requires 0 < x.probers && 2 <= scale && 0 < cap
    requires multiset(queue) == multiset(QueueOf(Plain(x), ps)) && MaxOf(maxes) == Largest(queue)
    requires t in queue || t in QueueOf(Skewed(x), bs)
    ensures 0 < t.rNum <= Shared(x, maxes, bs) && TablesFitFor(t.rNum, Shared(x, maxes, bs), scale, bkt, cap)
  {
    if t in queue {
      LargestBounds(queue, t);
      assert t in multiset(QueueOf(Plain(x), ps));
    } else {
      SkewMostBounds(x, bs, t);
    }
    assert t in JoinQueue(x, ps, bs);
    var p, q := JoinTaskFrom(x, ps, bs, t);
    TablesFit(t.rNum, Shared(x, maxes, bs), scale);
    ScTableFits(t.rNum, Shared(x, maxes, bs), scale, bkt, cap);
    HroTableFits(Shared(x, maxes, bs));
  }

  // ----- regions -----

  lemma SubClusterInside(x: Join, p: nat, q: nat, size: nat)
    requires p < x.r1.fanout && q < x.r2.fanout && Fits(x.R, x.r1, 0, Pad(x.r2, x.t), size)
    ensures var l := SubLayout(x.R, x.r1, x.r2, x.t, p);
      && l.base <= At(l, x.r2, q)
      && At(l, x.r2, q) + Size(l, x.r2, q) + x.t <= l.base + |l.rel| + Pad(x.r2, x.t) <= size
  {
    var l := SubLayout(x.R, x.r1, x.r2, x.t, p);
    ClusterInside(l.rel, x.r2, l.base, x.t, q);
    ClusterInside(x.R, x.r1, 0, Pad(x.r2, x.t), p);
  }

  lemma ClustersInOrder(x: Join, p: nat, q: nat, p': nat, q': nat, size: nat)
    requires p < x.r1.fanout && p' < x.r1.fanout && q < x.r2.fanout && q' < x.r2.fanout && (p < p' || (p == p' && q < q'))
    requires Fits(x.R, x.r1, 0, Pad(x.r2, x.t), size)
    ensures var l, l' := SubLayout(x.R, x.r1, x.r2, x.t, p), SubLayout(x.R, x.r1, x.r2, x.t, p');
      At(l, x.r2, q) + Size(l, x.r2, q) + x.t <= At(l', x.r2, q')
  {
    if p == p' {
      ClustersApart(Sel(x.R, x.r1, p), x.r2, ClusterBase(x.R, x.r1, 0, Pad(x.r2, x.t), p), x.t, q, q');
    } else {
      SubClusterInside(x, p, q, size);
      SubClusterInside(x, p', q', size);
      ClustersApart(x.R, x.r1, 0, Pad(x.r2, x.t), p, p');
    }
  }

  /** The region that the kernel of a task may write to: as many tuples as its build side has, and a
      block behind it, of which the vectorised kernel clears four tuples. */
  function RegionEnd(x: Join, t: Task): nat { t.rAt + t.rNum + x.t }

  lemma OriginsApart(x: Join, size: nat, t: Task, p: nat, q: nat, t': Task, p': nat, q': nat)
    requires p < x.r1.fanout && p' < x.r1.fanout && Fits(x.R, x.r1, 0, Pad(x.r2, x.t), size)
    requires BuildSideOf(x, t, p, q) && BuildSideOf(x, t', p', q')
    ensures (t.rAt == t'.rAt && t.rNum == t'.rNum) || RegionEnd(x, t) <= t'.rAt || RegionEnd(x, t') <= t.rAt
  {
    if p < p' || (p == p' && q < q') {
      ClustersInOrder(x, p, q, p', q', size);
    } else if p' < p || q' < q {
      ClustersInOrder(x, p', q', p, q, size);
    }
  }

  /** Two join tasks have the same build side, or their regions do not meet; and no region leaves the
      array. */
  lemma RegionsApart(x: Join, ps: seq<nat>, bs: seq<nat>, size: nat, t: Task, t': Task)
    requires 0 < x.probers && FirstLevel(x, ps, bs) && Fits(x.R, x.r1, 0, Pad(x.r2, x.t), size)
    requires t in JoinQueue(x, ps, bs) && t' in JoinQueue(x, ps, bs)
    ensures RegionEnd(x, t) <= size
    ensures (t.rAt == t'.rAt && t.rNum == t'.rNum) || RegionEnd(x, t) <= t'.rAt || RegionEnd(x, t') <= t.rAt
  {
    var p, q := JoinTaskFrom(x, ps, bs, t);
    var p', q' := JoinTaskFrom(x, ps, bs, t');
    assert Dispatched(x, ps, bs, p) && Dispatched(x, ps, bs, p');
    SubClusterInside(x, p, q, size);
    OriginsApart(x, size, t, p, q, t', p', q');
  }
}
