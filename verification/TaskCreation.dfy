/** The loops that create tasks, and the bound that they keep on the build sides. */
module TaskCreation {
  import opened Bits
  import opened Relations
  import opened Offsets
  import opened Partitioning
  import opened Tasks

  function Larger(a: nat, b: nat): nat { if a > b then a else b }

  /** The largest build side of a queue. */
  function Largest(q: seq<Task>): nat {
    if q == [] then 0 else Larger(Largest(q[1..]), q[0].rNum)
  }

  lemma {:induction false} LargestBounds(q: seq<Task>, t: Task)
    requires t in q
    ensures t.rNum <= Largest(q)
  {
    if t != q[0] {
      LargestBounds(q[1..], t);
    }
  }

  lemma LargestCons(t: Task, q: seq<Task>)
    ensures Largest([t] + q) == Larger(Largest(q), t.rNum)
  {
    assert ([t] + q)[1..] == q;
  }

  lemma {:induction false} LargestConcat(a: seq<Task>, b: seq<Task>)
    ensures Largest(a + b) == Larger(Largest(a), Largest(b))
  {
    if a == [] {
      assert a + b == b;
    } else {
      assert (a + b)[1..] == a[1..] + b;
      LargestConcat(a[1..], b);
    }
  }

  /** The largest of some numbers. */
  function MaxOf(a: seq<nat>): nat {
    if a == [] then 0 else Larger(MaxOf(a[..|a| - 1]), a[|a| - 1])
  }

  lemma {:induction false} MaxOfBounds(a: seq<nat>, i: nat)
    requires i < |a|
    ensures a[i] <= MaxOf(a)
  {
    if i < |a| - 1 {
      MaxOfBounds(a[..|a| - 1], i);
    }
  }

  lemma {:induction false} MaxOfGrows(a: seq<nat>, i: nat, x: nat)
    requires i < |a|
    ensures MaxOf(a[i := Larger(a[i], x)]) == Larger(MaxOf(a), x)
  {
    var n := |a| - 1;
    if i == n {
      assert a[i := Larger(a[i], x)][..n] == a[..n];
    } else {
      assert a[i := Larger(a[i], x)][..n] == a[..n][i := Larger(a[i], x)];
      MaxOfGrows(a[..n], i, x);
    }
  }

  /** One more cluster. */
  lemma CreatedOneMore(cl: nat -> Task, pair: bool, rule: Rule, n: nat, queue0: seq<Task>)
    ensures Created(cl, pair, rule, n + 1) + queue0
         == (if Kept(pair, rule, cl(n)) then [cl(n)] + (Created(cl, pair, rule, n) + queue0) else Created(cl, pair, rule, n) + queue0)
    ensures Largest(Created(cl, pair, rule, n + 1))
         == (if Kept(pair, rule, cl(n)) then Larger(Largest(Created(cl, pair, rule, n)), cl(n).rNum) else Largest(Created(cl, pair, rule, n)))
  {
    LargestCons(cl(n), Created(cl, pair, rule, n));
  }

  // ----- after a serial pass: from the histograms -----

  function CountsBelow(hist: seq<Bin>, p: nat): nat
    requires p <= |hist|
  {
    if p == 0 then 0 else CountsBelow(hist, p - 1) + hist[p - 1].count
  }

  ghost predicate FromCounts(cl: nat -> Task, rHist: seq<Bin>, sHist: seq<Bin>, rBase: nat, sBase: nat, pad: nat, p: nat)
    requires p < |rHist| == |sHist|
  {
    cl(p) == Task(rBase + CountsBelow(rHist, p) + Times(p, pad), rHist[p].count,
                  sBase + CountsBelow(sHist, p) + Times(p, pad), sHist[p].count)
  }

  /** The task creation of `serial_radix_partition`. */
  method CreateJoinTasks(rHist: seq<Bin>, sHist: seq<Bin>, rBase: nat, sBase: nat, pad: nat,
                         queue0: seq<Task>, max0: nat, ghost cl: nat -> Task) returns (queue: seq<Task>, max: nat)
    requires |rHist| == |sHist|
    requires forall p: nat {:trigger FromCounts(cl, rHist, sHist, rBase, sBase, pad, p)} ::
      p < |rHist| ==> FromCounts(cl, rHist, sHist, rBase, sBase, pad, p)
    ensures queue == Created(cl, true, All, |rHist|) + queue0
    ensures max == Larger(max0, Largest(Created(cl, true, All, |rHist|)))
  {
    queue, max := queue0, max0;
    var rAccum, sAccum := 0, 0;
    for idx := 0 to |rHist|
      invariant rAccum == CountsBelow(rHist, idx) && sAccum == CountsBelow(sHist, idx)
      invariant queue == Created(cl, true, All, idx) + queue0
      invariant max == Larger(max0, Largest(Created(cl, true, All, idx)))
    {
      assert FromCounts(cl, rHist, sHist, rBase, sBase, pad, idx);
      CreatedOneMore(cl, true, All, idx, queue0);
      if rHist[idx].count > 0 && sHist[idx].count > 0 {
        queue := [Task(rBase + rAccum + Times(idx, pad), rHist[idx].count, sBase + sAccum + Times(idx, pad), sHist[idx].count)] + queue;
        max := if max > rHist[idx].count then max else rHist[idx].count;
      }
      rAccum := rAccum + rHist[idx].count;
      sAccum := sAccum + sHist[idx].count;
    }
  }

  ghost predicate FromBuildCounts(cl: nat -> Task, rHist: seq<Bin>, t: Task, rBase: nat, pad: nat, p: nat)
    requires p < |rHist|
  {
    cl(p) == Task(rBase + CountsBelow(rHist, p) + Times(p, pad), rHist[p].count, t.sAt, t.sNum)
  }

  /** The task creation of `asymm_radix_serial_radix_partition`. */
  method CreateAsymmetricTasks(rHist: seq<Bin>, t: Task, rBase: nat, pad: nat,
                               queue0: seq<Task>, max0: nat, ghost cl: nat -> Task) returns (queue: seq<Task>, max: nat)
    requires forall p: nat {:trigger FromBuildCounts(cl, rHist, t, rBase, pad, p)} ::
      p < |rHist| ==> FromBuildCounts(cl, rHist, t, rBase, pad, p)
    ensures queue == Created(cl, false, All, |rHist|) + queue0
    ensures max == Larger(max0, Largest(Created(cl, false, All, |rHist|)))
  {
    queue, max := queue0, max0;
    var rAccum := 0;
    for idx := 0 to |rHist|
      invariant rAccum == CountsBelow(rHist, idx)
      invariant queue == Created(cl, false, All, idx) + queue0
      invariant max == Larger(max0, Largest(Created(cl, false, All, idx)))
    {
      assert FromBuildCounts(cl, rHist, t, rBase, pad, idx);
      CreatedOneMore(cl, false, All, idx, queue0);
      if rHist[idx].count > 0 {
        queue := [Task(rBase + rAccum + Times(idx, pad), rHist[idx].count, t.sAt, t.sNum)] + queue;
        max := if max > rHist[idx].count then max else rHist[idx].count;
      }
      rAccum := rAccum + rHist[idx].count;
    }
  }

  // ----- after a parallel pass: from the offsets of thread 0 -----

  ghost predicate FromOffsets(cl: nat -> Task, rOff: seq<nat>, sOff: seq<nat>, rTotal: nat, sTotal: nat,
                              rBase: nat, sBase: nat, pad: nat, p: nat)
    requires p < |rOff| == |sOff|
  {
    && cl(p).rAt == rBase + rOff[p] && cl(p).sAt == sBase + sOff[p]
    && cl(p).rNum == SizeFromOffsets(rOff, rTotal, pad, p)
    && cl(p).sNum == SizeFromOffsets(sOff, sTotal, pad, p)
  }

  /** Every pair with tuples on both sides is in one of the queues; with skew handling both sides of a
      task in the first queue are within the limit, and one side of a task in the other is above it. */
  ghost predicate SortedOut(cl: nat -> Task, n: nat, skewHandling: bool, limit: nat, part: seq<Task>, skew: seq<Task>) {
    && (forall t :: t in part ==> t.rNum > 0 && t.sNum > 0 && (skewHandling ==> t.rNum <= limit && t.sNum <= limit))
    && (forall t :: t in skew ==> t.rNum > 0 && t.sNum > 0 && (t.rNum > limit || t.sNum > limit))
    && (forall p: nat :: p < n && cl(p).rNum > 0 && cl(p).sNum > 0 ==> cl(p) in part || cl(p) in skew)
  }

  lemma CreatedSortedOut(cl: nat -> Task, n: nat, skewHandling: bool, limit: nat)
    ensures SortedOut(cl, n, skewHandling, limit, Created(cl, true, if skewHandling then Small(limit) else All, n),
                      if skewHandling then Created(cl, true, Big(limit), n) else [])
  {
    CreatedSizes(cl, true, limit, n);
  }

  function FirstRule(skewHandling: bool, limit: nat): Rule { if skewHandling then Small(limit) else All }

  method AddFirstTask(t: Task, skewHandling: bool, limit: nat, part0: seq<Task>, skew0: seq<Task>, max0: nat)
    returns (part: seq<Task>, skew: seq<Task>, max: nat)
    ensures part == KeptOnly(true, FirstRule(skewHandling, limit), t, part0)
    ensures skew == if skewHandling then KeptOnly(true, Big(limit), t, skew0) else skew0
    ensures max == if Kept(true, FirstRule(skewHandling, limit), t) then Larger(max0, t.rNum) else max0
  {
    part, skew, max := part0, skew0, max0;
    if skewHandling && t.rNum > 0 && t.sNum > 0 && (t.rNum > limit || t.sNum > limit) {
      skew := [t] + skew;
    } else if t.rNum > 0 && t.sNum > 0 {
      part := [t] + part;
      max := if max >= t.rNum then max else t.rNum;
    }
  }

  /** The creation of second-pass tasks by thread 0.  With skew handling, big pairs go to a queue of
      their own and do not count for the maximum. */
  method CreateSecondPassTasks(rOff: seq<nat>, sOff: seq<nat>, rTotal: nat, sTotal: nat, pad: nat,
                               skewHandling: bool, limit: nat, ghost cl: nat -> Task)
    returns (part: seq<Task>, skew: seq<Task>, max: nat)
    requires |rOff| == |sOff|
    requires forall p: nat {:trigger FromOffsets(cl, rOff, sOff, rTotal, sTotal, 0, 0, pad, p)} ::
      p < |rOff| ==> FromOffsets(cl, rOff, sOff, rTotal, sTotal, 0, 0, pad, p)
    ensures part == Created(cl, true, if skewHandling then Small(limit) else All, |rOff|)
    ensures skew == if skewHandling then Created(cl, true, Big(limit), |rOff|) else []
    ensures max == Largest(part)
    ensures SortedOut(cl, |rOff|, skewHandling, limit, part, skew)
  {
    part, skew, max := [], [], 0;
    ghost var rule := FirstRule(skewHandling, limit);
    for idx := 0 to |rOff|
      invariant part == Created(cl, true, rule, idx)
      invariant skew == if skewHandling then Created(cl, true, Big(limit), idx) else []
      invariant max == Largest(part)
    {
      assert FromOffsets(cl, rOff, sOff, rTotal, sTotal, 0, 0, pad, idx);
      CreatedOneMore(cl, true, rule, idx, []);
      var rNum, sNum := SizeFromOffsets(rOff, rTotal, pad, idx), SizeFromOffsets(sOff, sTotal, pad, idx);
      part, skew, max := AddFirstTask(Task(rOff[idx], rNum, sOff[idx], sNum), skewHandling, limit, part, skew, max);
    }
    CreatedSortedOut(cl, |rOff|, skewHandling, limit);
  }

  /** The inner loop of skew handling: one task per probing thread. */
  method SplitTask(t: Task, threads: nat, queue0: seq<Task>) returns (queue: seq<Task>)
    requires 0 < threads
    ensures queue == Pieces(t, threads, Share(t.sNum, threads), threads) + queue0
    ensures |queue| == threads + |queue0| && EvenPieces(queue[..threads], t, threads) && queue[threads..] == queue0
  {
    PiecesAreEven(t, threads);
    queue := queue0;
    var share := Share(t.sNum, threads);
    for jdx := 0 to threads
      invariant queue == Pieces(t, threads, share, jdx) + queue0
    {
      TimesMonotone(jdx, threads, share);
      var num := if jdx == threads - 1 then t.sNum - Times(jdx, share) else share;
      queue := [Task(t.rAt, t.rNum, t.sAt + Times(jdx, share), num)] + queue;
    }
  }

  /** The largest build side of the first `n` clusters. */
  function Most(cl: nat -> Task, n: nat): nat {
    if n == 0 then 0 else Larger(Most(cl, n - 1), cl(n - 1).rNum)
  }

  lemma {:induction false} MostBounds(cl: nat -> Task, n: nat, p: nat)
    requires p < n
    ensures cl(p).rNum <= Most(cl, n)
  {
    if p < n - 1 {
      MostBounds(cl, n - 1, p);
    }
  }

  lemma SplitOneMoreTask(cl: nat -> Task, pair: bool, limit: nat, threads: nat, n: nat, queue0: seq<Task>)
    requires 0 < threads
    ensures Split(cl, pair, limit, threads, n + 1) + queue0
         == SplitOnly(pair, limit, threads, cl(n), Split(cl, pair, limit, threads, n) + queue0)
  {
    PutInFront(Pieces(cl(n), threads, Share(cl(n).sNum, threads), threads), Split(cl, pair, limit, threads, n), queue0);
  }

  lemma PutInFront(a: seq<Task>, b: seq<Task>, c: seq<Task>)
    ensures (a + b) + c == a + (b + c)
  {
  }

  method AddSkewTask(t: Task, limit: nat, threads: nat, join0: seq<Task>, part0: seq<Task>) returns (join: seq<Task>, part: seq<Task>)
    requires 0 < threads
    ensures join == KeptOnly(true, Small(limit), t, join0)
    ensures part == SplitOnly(true, limit, threads, t, part0)
  {
    join, part := join0, part0;
    if t.rNum > 0 && t.sNum > 0 && (t.rNum > limit || t.sNum > limit) {
      part := SplitTask(t, threads, part);
    } else if t.rNum > 0 && t.sNum > 0 {
      join := [t] + join;
    }
  }

  /** The join queue has got no task above the limit. */
  ghost predicate OnlySmall(pair: bool, limit: nat, join: seq<Task>, join0: seq<Task>) {
    forall t :: t in join ==> t in join0 || WithinLimit(pair, t, limit)
  }

  /** And the part queue nothing but pieces of clusters above it. */
  ghost predicate OnlyPieces(cl: nat -> Task, pair: bool, limit: nat, n: nat, part: seq<Task>, part0: seq<Task>) {
    forall t :: t in part ==> t in part0 || PieceOfBig(cl, pair, limit, n, t)
  }

  lemma SkewSizes(cl: nat -> Task, pair: bool, limit: nat, threads: nat, n: nat, join0: seq<Task>, part0: seq<Task>)
    requires 0 < threads
    ensures OnlySmall(pair, limit, Created(cl, pair, Small(limit), n) + join0, join0)
    ensures OnlyPieces(cl, pair, limit, n, Split(cl, pair, limit, threads, n) + part0, part0)
  {
    CreatedSizes(cl, pair, limit, n);
    SplitSizes(cl, pair, limit, threads, n);
  }

  /** The creation of join tasks for one pair that all threads have partitioned: big tasks are split
      into the part queue, the others go to the join queue; the maximum counts them all. */
  method CreateSkewTasks(rOff: seq<nat>, sOff: seq<nat>, t: Task, pad: nat, limit: nat, threads: nat,
                         join0: seq<Task>, part0: seq<Task>, max0: nat, ghost cl: nat -> Task)
    returns (join: seq<Task>, part: seq<Task>, max: nat)
    requires 0 < threads && |rOff| == |sOff|
    requires forall p: nat {:trigger FromOffsets(cl, rOff, sOff, t.rNum, t.sNum, t.rAt, t.sAt, pad, p)} ::
      p < |rOff| ==> FromOffsets(cl, rOff, sOff, t.rNum, t.sNum, t.rAt, t.sAt, pad, p)
    ensures join == Created(cl, true, Small(limit), |rOff|) + join0
    ensures part == Split(cl, true, limit, threads, |rOff|) + part0
    ensures max == Larger(max0, Most(cl, |rOff|))
    ensures OnlySmall(true, limit, join, join0) && OnlyPieces(cl, true, limit, |rOff|, part, part0)
  {
    join, part, max := join0, part0, max0;
    for idx := 0 to |rOff|
      invariant join == Created(cl, true, Small(limit), idx) + join0
      invariant part == Split(cl, true, limit, threads, idx) + part0
      invariant max == Larger(max0, Most(cl, idx))
    {
      assert FromOffsets(cl, rOff, sOff, t.rNum, t.sNum, t.rAt, t.sAt, pad, idx);
      CreatedOneMore(cl, true, Small(limit), idx, join0);
      SplitOneMoreTask(cl, true, limit, threads, idx, part0);
      var rNum, sNum := SizeFromOffsets(rOff, t.rNum, pad, idx), SizeFromOffsets(sOff, t.sNum, pad, idx);
      max := if max > rNum then max else rNum;
      var task := Task(t.rAt + rOff[idx], rNum, t.sAt + sOff[idx], sNum);
      join, part := AddSkewTask(task, limit, threads, join, part);
    }
    SkewSizes(cl, true, limit, threads, |rOff|, join0, part0);
  }

  ghost predicate FromBuildOffsets(cl: nat -> Task, rOff: seq<nat>, t: Task, pad: nat, p: nat)
    requires p < |rOff|
  {
    && cl(p).rAt == t.rAt + rOff[p] && cl(p).rNum == SizeFromOffsets(rOff, t.rNum, pad, p)
    && cl(p).sAt == t.sAt && cl(p).sNum == t.sNum
  }

  method AddBuildTask(t: Task, limit: nat, threads: nat, join0: seq<Task>, part0: seq<Task>) returns (join: seq<Task>, part: seq<Task>)
    requires 0 < threads
    ensures join == KeptOnly(false, Small(limit), t, join0)
    ensures part == SplitOnly(false, limit, threads, t, part0)
  {
    join, part := join0, part0;
    if t.rNum > limit {
      part := SplitTask(t, threads, part);
    } else if t.rNum > 0 {
      join := [t] + join;
    }
  }

  /** The asymmetric form: only the build side decides, and every piece is one of the whole probe side. */
  method CreateAsymmetricSkewTasks(rOff: seq<nat>, t: Task, pad: nat, limit: nat, threads: nat,
                                   join0: seq<Task>, part0: seq<Task>, max0: nat, ghost cl: nat -> Task)
    returns (join: seq<Task>, part: seq<Task>, max: nat)
    requires 0 < threads
    requires forall p: nat {:trigger FromBuildOffsets(cl, rOff, t, pad, p)} :: p < |rOff| ==> FromBuildOffsets(cl, rOff, t, pad, p)
    ensures join == Created(cl, false, Small(limit), |rOff|) + join0
    ensures part == Split(cl, false, limit, threads, |rOff|) + part0
    ensures max == Larger(max0, Most(cl, |rOff|))
    ensures OnlySmall(false, limit, join, join0) && OnlyPieces(cl, false, limit, |rOff|, part, part0)
  {
    join, part, max := join0, part0, max0;
    for idx := 0 to |rOff|
      invariant join == Created(cl, false, Small(limit), idx) + join0
      invariant part == Split(cl, false, limit, threads, idx) + part0
      invariant max == Larger(max0, Most(cl, idx))
    {
      assert FromBuildOffsets(cl, rOff, t, pad, idx);
      CreatedOneMore(cl, false, Small(limit), idx, join0);
      SplitOneMoreTask(cl, false, limit, threads, idx, part0);
      var rNum := SizeFromOffsets(rOff, t.rNum, pad, idx);
      max := if max > rNum then max else rNum;
      var task := Task(t.rAt + rOff[idx], rNum, t.sAt, t.sNum);
      join, part := AddBuildTask(task, limit, threads, join, part);
    }
    SkewSizes(cl, false, limit, threads, |rOff|, join0, part0);
  }

  /** The split tasks move to the front of the join queue, one by one. */
  method MoveTasks(part0: seq<Task>, join0: seq<Task>) returns (join: seq<Task>)
    ensures multiset(join) == multiset(part0) + multiset(join0)
    ensures forall v: Task -> nat :: QueueSum(v, join) == QueueSum(v, part0) + QueueSum(v, join0)
  {
    join := join0;
    var part := part0;
    while part != []
      invariant multiset(part) + multiset(join) == multiset(part0) + multiset(join0)
      invariant forall v: Task -> nat :: QueueSum(v, part) + QueueSum(v, join) == QueueSum(v, part0) + QueueSum(v, join0)
      decreases |part|
    {
      var t := part[0];
      assert part == [t] + part[1..];
      forall v: Task -> nat {
        QueueCons(v, t, join);
      }
      part, join := part[1..], [t] + join;
    }
  }

  // ----- the counts and offsets are those of the partitioned relations -----

  lemma {:induction false} CountsAreBelow(hist: seq<Bin>, rel: seq<Tuple>, r: Radix, p: nat)
    requires Counts(hist, rel, r) && p <= r.fanout
    ensures CountsBelow(hist, p) == Offsets.Below(rel, r, p)
  {
    if p > 0 {
      CountsAreBelow(hist, rel, r, p - 1);
    }
  }

  lemma CountsGiveClusters(rHist: seq<Bin>, sHist: seq<Bin>, rl: Layout, sl: Layout, r: Radix, p: nat)
    requires Counts(rHist, rl.rel, r) && Counts(sHist, sl.rel, r) && rl.pad == sl.pad && p < r.fanout
    ensures FromCounts(Clusters(Pair(rl, sl), r), rHist, sHist, rl.base, sl.base, rl.pad, p)
  {
    CountsAreBelow(rHist, rl.rel, r, p);
    CountsAreBelow(sHist, sl.rel, r, p);
  }

  lemma CountsGiveBuildClusters(rHist: seq<Bin>, rl: Layout, t: Task, r: Radix, p: nat)
    requires Counts(rHist, rl.rel, r) && p < r.fanout
    ensures FromBuildCounts(Clusters(Whole(rl, t), r), rHist, t, rl.base, rl.pad, p)
  {
    CountsAreBelow(rHist, rl.rel, r, p);
  }

  ghost predicate MovedBack(off: seq<nat>, chunks: seq<seq<Tuple>>, r: Radix, pad: nat) {
    |off| == r.fanout && forall q: nat :: q < r.fanout ==> off[q] == Start(chunks, r, 0, q) + Times(q, pad)
  }

  lemma OffsetsGiveCluster(off: seq<nat>, chunks: seq<seq<Tuple>>, r: Radix, l: Layout, p: nat)
    requires MovedBack(off, chunks, r, l.pad) && l.rel == Flatten(chunks) && p < r.fanout
    ensures l.base + off[p] == At(l, r, p) && SizeFromOffsets(off, |l.rel|, l.pad, p) == Size(l, r, p)
  {
    SizesAreExact(chunks, r, l.pad, off, p);
  }

  lemma OffsetsGiveClusters(rOff: seq<nat>, sOff: seq<nat>, rChunks: seq<seq<Tuple>>, sChunks: seq<seq<Tuple>>,
                            rl: Layout, sl: Layout, r: Radix, p: nat)
    requires MovedBack(rOff, rChunks, r, rl.pad) && rl.rel == Flatten(rChunks)
    requires MovedBack(sOff, sChunks, r, sl.pad) && sl.rel == Flatten(sChunks) && rl.pad == sl.pad && p < r.fanout
    ensures FromOffsets(Clusters(Pair(rl, sl), r), rOff, sOff, |rl.rel|, |sl.rel|, rl.base, sl.base, rl.pad, p)
  {
    OffsetsGiveCluster(rOff, rChunks, r, rl, p);
    OffsetsGiveCluster(sOff, sChunks, r, sl, p);
  }

  lemma OffsetsGiveBuildClusters(rOff: seq<nat>, rChunks: seq<seq<Tuple>>, rl: Layout, t: Task, r: Radix, p: nat)
    requires MovedBack(rOff, rChunks, r, rl.pad) && rl.rel == Flatten(rChunks) && p < r.fanout
    requires t.rAt == rl.base && t.rNum == |rl.rel|
    ensures FromBuildOffsets(Clusters(Whole(rl, t), r), rOff, t, rl.pad, p)
  {
    OffsetsGiveCluster(rOff, rChunks, r, rl, p);
  }

  // ----- the shared maximum -----

  /** Thread 0 takes the maximum of what all threads found, and gives it to all of them. */
  method ShareMaximum(maxes: array<nat>, own: nat) returns (max: nat)
    modifies maxes
    ensures max == Larger(own, MaxOf(old(maxes[..])))
    ensures forall i :: 0 <= i < maxes.Length ==> maxes[i] == max
  {
    max := own;
    for idx := 0 to maxes.Length
      invariant max == Larger(own, MaxOf(maxes[..idx]))
      invariant maxes[..] == old(maxes[..])
    {
      assert maxes[..idx + 1][..idx] == maxes[..idx];
      if max < maxes[idx] {
        max := maxes[idx];
      }
    }
    assert maxes[..maxes.Length] == old(maxes[..]);
    for idx := 0 to maxes.Length
      invariant forall i :: 0 <= i < idx ==> maxes[i] == max
    {
      maxes[idx] := max;
    }
  }

  lemma {:induction false} PiecesBound(t: Task, threads: nat, share: nat, n: nat)
    ensures Largest(Pieces(t, threads, share, n)) <= t.rNum
  {
    if n > 0 {
      PiecesBound(t, threads, share, n - 1);
      LargestCons(Piece(t, threads, share, n - 1), Pieces(t, threads, share, n - 1));
    }
  }

  /** The maximum of skew handling bounds all tasks that it creates. */
  lemma {:induction false} MostBoundsTasks(cl: nat -> Task, pair: bool, rule: Rule, limit: nat, threads: nat, n: nat)
    requires 0 < threads
    ensures Largest(Created(cl, pair, rule, n)) <= Most(cl, n)
    ensures Largest(Split(cl, pair, limit, threads, n)) <= Most(cl, n)
  {
    if n > 0 {
      MostBoundsTasks(cl, pair, rule, limit, threads, n - 1);
      var t := cl(n - 1);
      var share := Share(t.sNum, threads);
      LargestCons(t, Created(cl, pair, rule, n - 1));
      PiecesBound(t, threads, share, threads);
      LargestConcat(Pieces(t, threads, share, threads), Split(cl, pair, limit, threads, n - 1));
    }
  }
}
