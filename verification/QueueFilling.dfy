/** The loops of task creation, run on what a pass leaves behind, add the join tasks that the join
    queues are made of: from the histogram of a task that one thread has partitioned, and from the
    offsets of thread 0 for one that all threads have partitioned. */
module QueueFilling {
  import opened Bits
  import opened Relations
  import opened Offsets
  import opened Partitioning
  import opened Tasks
  import opened TaskCreation
  import opened JoinQueues

  lemma PlainClusters(x: Join, p: nat, rHist: seq<Bin>, sHist: seq<Bin>, q: nat)
    requires Counts(rHist, Sel(x.R, x.r1, p), x.r2) && (x.pair ==> Counts(sHist, Sel(x.S, x.r1, p), x.r2)) && q < x.r2.fanout
    ensures x.pair ==> FromCounts(SubTasks(x, p), rHist, sHist, SubLayout(x.R, x.r1, x.r2, x.t, p).base,
                                  SubLayout(x.S, x.r1, x.r2, x.t, p).base, x.t, q)
    ensures !x.pair ==> FromBuildCounts(SubTasks(x, p), rHist, FirstTask(x, p), SubLayout(x.R, x.r1, x.r2, x.t, p).base, x.t, q)
  {
    if x.pair {
      CountsGiveClusters(rHist, sHist, SubLayout(x.R, x.r1, x.r2, x.t, p), SubLayout(x.S, x.r1, x.r2, x.t, p), x.r2, q);
    } else {
      CountsGiveBuildClusters(rHist, SubLayout(x.R, x.r1, x.r2, x.t, p), FirstTask(x, p), x.r2, q);
    }
  }

  /** After one thread has partitioned the first-pass task `t`, on both sides or on the build side. */
  method AddPlain(x: Join, p: nat, t: Task, rHist: seq<Bin>, sHist: seq<Bin>, queue0: seq<Task>, max0: nat)
    returns (queue: seq<Task>, max: nat)
    requires t == FirstTask(x, p)
    requires Counts(rHist, Sel(x.R, x.r1, p), x.r2) && (x.pair ==> Counts(sHist, Sel(x.S, x.r1, p), x.r2))
    ensures queue == Plain(x)(p) + queue0 && max == Larger(max0, Largest(Plain(x)(p)))
  {
    forall q: nat | q < x.r2.fanout {
      PlainClusters(x, p, rHist, sHist, q);
    }
    if x.pair {
      queue, max := CreateJoinTasks(rHist, sHist, t.rAt, t.sAt, x.t, queue0, max0, SubTasks(x, p));
    } else {
      queue, max := CreateAsymmetricTasks(rHist, t, t.rAt, x.t, queue0, max0, SubTasks(x, p));
    }
  }

  lemma SkewClusters(x: Join, p: nat, rOff: seq<nat>, sOff: seq<nat>, rChunks: seq<seq<Tuple>>, sChunks: seq<seq<Tuple>>, q: nat)
    requires MovedBack(rOff, rChunks, x.r2, x.t) && Flatten(rChunks) == Sel(x.R, x.r1, p) && q < x.r2.fanout
    requires x.pair ==> MovedBack(sOff, sChunks, x.r2, x.t) && Flatten(sChunks) == Sel(x.S, x.r1, p)
    ensures x.pair ==> FromOffsets(SubTasks(x, p), rOff, sOff, FirstTask(x, p).rNum, FirstTask(x, p).sNum,
                                   FirstTask(x, p).rAt, FirstTask(x, p).sAt, x.t, q)
    ensures !x.pair ==> FromBuildOffsets(SubTasks(x, p), rOff, FirstTask(x, p), x.t, q)
  {
    if x.pair {
      OffsetsGiveClusters(rOff, sOff, rChunks, sChunks, SubLayout(x.R, x.r1, x.r2, x.t, p), SubLayout(x.S, x.r1, x.r2, x.t, p), x.r2, q);
    } else {
      OffsetsGiveBuildClusters(rOff, rChunks, SubLayout(x.R, x.r1, x.r2, x.t, p), FirstTask(x, p), x.r2, q);
    }
  }

  /** After all threads have partitioned the first-pass task `t`: the small tasks go to the join queue,
      the pieces of the big ones to the part queue, which thread 0 moves to the join queue in the end. */
  method AddSkewed(x: Join, p: nat, t: Task, rOff: seq<nat>, sOff: seq<nat>, join0: seq<Task>, part0: seq<Task>, max0: nat,
                   ghost rChunks: seq<seq<Tuple>>, ghost sChunks: seq<seq<Tuple>>)
    returns (join: seq<Task>, part: seq<Task>, max: nat)
    requires 0 < x.probers && t == FirstTask(x, p)
    requires MovedBack(rOff, rChunks, x.r2, x.t) && Flatten(rChunks) == Sel(x.R, x.r1, p)
    requires x.pair ==> MovedBack(sOff, sChunks, x.r2, x.t) && Flatten(sChunks) == Sel(x.S, x.r1, p)
    ensures multiset(join) + multiset(part) == multiset(Skewed(x)(p)) + multiset(join0) + multiset(part0)
    ensures max == Larger(max0, Most(SubTasks(x, p), x.r2.fanout))
  {
    forall q: nat | q < x.r2.fanout {
      SkewClusters(x, p, rOff, sOff, rChunks, sChunks, q);
    }
    if x.pair {
      join, part, max := CreateSkewTasks(rOff, sOff, t, x.t, x.limit1, x.probers, join0, part0, max0, SubTasks(x, p));
    } else {
      join, part, max := CreateAsymmetricSkewTasks(rOff, t, x.t, x.limit1, x.probers, join0, part0, max0, SubTasks(x, p));
    }
  }
}
