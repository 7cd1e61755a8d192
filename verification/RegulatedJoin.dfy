/** The bandwidth-regulated join: only some of the threads write.  Both first passes use the same
    buffers, the second pass of the build side goes through two queues, and the probe side is
    partitioned once. */
module RegulatedJoin {
  import opened Bits
  import opened Relations
  import opened Partitioning
  import opened Accumulators
  import opened Tasks
  import opened TaskCreation
  import opened JoinQueues
  import opened Passes
  import opened EndToEnd
  import ConcurrentScatter
  import JoinMemory
  import SharedBuffers
  import SecondPassQueues
  import SecondPassStores

  /** The first pass of both relations over shared buffers, with only some threads writing. */
  function FirstRounds(x: Join, writers: nat, rSize: nat, sSize: nat): SharedBuffers.Plan
    requires 0 < x.builders
  {
    SharedBuffers.TwoSides(x.t, x.r1, Chunks(x.R, x.builders), Chunks(x.S, x.builders), Pad(x.r2, x.t), rSize, sSize, writers)
  }

  /** The second pass of the build side, through two queues. */
  function SecondSetup(x: Join, writers: nat, rSize: nat, jobs: seq<Job>): SecondPassStores.Setup {
    SecondPassStores.Setup(SerialPasses(x.t, x.r2, jobs, rSize), x.t, SecondPassQueues.Plan(x.builders, writers, x.r2.fanout, x.pair))
  }

  /** The join tasks of the `k`-th of the tasks `ps`. */
  function TasksAt(x: Join, ps: seq<nat>): nat -> nat -> Task {
    (k: nat) => SubTasks(x, if k < |ps| then ps[k] else 0)
  }

  function Indices(n: nat): seq<nat> { seq(n, (k: nat) => k) }

  lemma {:induction false} QueueOfIndices(x: Join, plan: SecondPassQueues.Plan, ps: seq<nat>, n: nat)
    requires n <= |ps| && plan.fan == x.r2.fanout && plan.pair == x.pair
    ensures QueueOf(SecondPassQueues.JoinTasksOf(plan, TasksAt(x, ps)), Indices(n)) == QueueOf(Plain(x), ps[..n])
  {
    if n > 0 {
      QueueOfIndices(x, plan, ps, n - 1);
      assert Indices(n)[..n - 1] == Indices(n - 1) && ps[..n][..n - 1] == ps[..n - 1];
    }
  }

  /** The join queue of the second pass, as far as one thread at a time partitions the tasks. */
  lemma SecondPassQueueIs(x: Join, plan: SecondPassQueues.Plan, ps: seq<nat>, tasks: seq<nat>)
    requires plan.fan == x.r2.fanout && plan.pair == x.pair && multiset(tasks) == multiset(Indices(|ps|))
    ensures multiset(QueueOf(SecondPassQueues.JoinTasksOf(plan, TasksAt(x, ps)), tasks)) == multiset(QueueOf(Plain(x), ps))
  {
    var f := SecondPassQueues.JoinTasksOf(plan, TasksAt(x, ps));
    QueueOfIndices(x, plan, ps, |ps|);
    assert ps[..|ps|] == ps;
    forall t
      ensures multiset(QueueOf(f, tasks))[t] == multiset(QueueOf(f, Indices(|ps|)))[t]
    {
      QueueOfPermutation(f, tasks, Indices(|ps|), t);
    }
  }

  /** A run of the bandwidth-regulated build: both first passes over shared buffers, the second pass of
      the build side through its two queues, and skew handling. */
  datatype Build = Build(writers: nat, rSize: nat, sSize: nat, rounds: seq<SharedBuffers.State>, jobs: seq<Job>,
                         tasks: seq<nat>, second: seq<SecondPassStores.Whole>, skews: seq<PassRun>)

  /** The array of the build side, or of the probe side, after the first pass. */
  ghost function AfterFirst(b: Build, side: nat): seq<Tuple> {
    if b.rounds != [] && side < |b.rounds[|b.rounds| - 1].mems| then b.rounds[|b.rounds| - 1].mems[side] else []
  }

  ghost function AfterSecond(b: Build): seq<Tuple> {
    if b.second == [] then [] else SecondPassStores.Memory(b.second[|b.second| - 1].m)
  }

  /** What the second pass adds to the join queue, and the maxima of its threads. */
  function Added(b: Build): seq<Task> { if b.second == [] then [] else b.second[|b.second| - 1].q.join }

  function Maxima(b: Build): seq<nat> { if b.second == [] then [] else b.second[|b.second| - 1].q.maxes }

  ghost predicate FirstRan(x: Join, b: Build) {
    && 0 < x.t && 0 < b.writers <= x.builders
    && Fits(x.R, x.r1, 0, Pad(x.r2, x.t), b.rSize) && Fits(x.S, x.r1, 0, Pad(x.r2, x.t), b.sSize)
    && SharedBuffers.Run(FirstRounds(x, b.writers, b.rSize, b.sSize), b.rounds)
    && SharedBuffers.AllFinished(FirstRounds(x, b.writers, b.rSize, b.sSize), b.rounds[|b.rounds| - 1])
  }

  ghost predicate SecondRan(x: Join, ps: seq<nat>, b: Build) {
    var setup := SecondSetup(x, b.writers, b.rSize, b.jobs);
    && AreJobs(b.jobs, AfterFirst(b, 0), FirstLayout(x.R, x.r2, x.t), x.r1, ps)
    && multiset(b.tasks) == multiset(Indices(|ps|))
    && SecondPassStores.Run(setup, TasksAt(x, ps), b.tasks, b.second)
    && SecondPassQueues.AllDone(b.second[|b.second| - 1].q)
  }

  ghost predicate SkewsRan(x: Join, bs: seq<nat>, b: Build) {
    SkewPasses(x.R, x.builders, x.r1, x.r2, x.t, b.rSize, AfterFirst(b, 0), AfterSecond(b), bs, b.skews)
  }

  lemma RoundsArePasses(x: Join, b: Build)
    requires FirstRan(x, b)
    ensures var plan := FirstRounds(x, b.writers, b.rSize, b.sSize);
      && FirstPass(x.R, x.builders, x.r1, x.r2, x.t, b.rSize, Regulated(plan, b.rounds, 0)) && After(Regulated(plan, b.rounds, 0)) == AfterFirst(b, 0)
      && FirstPass(x.S, x.builders, x.r1, x.r2, x.t, b.sSize, Regulated(plan, b.rounds, 1)) && After(Regulated(plan, b.rounds, 1)) == AfterFirst(b, 1)
  {
    ChunksAreTheRelation(x.R, x.builders);
    ChunksAreTheRelation(x.S, x.builders);
    SharedBuffers.TwoSidesOk(x.t, x.r1, Chunks(x.R, x.builders), Chunks(x.S, x.builders), Pad(x.r2, x.t), b.rSize, b.sSize, b.writers);
  }

  lemma IndexGiven(tasks: seq<nat>, n: nat, k: nat)
    requires multiset(tasks) == multiset(Indices(n)) && k < n
    ensures k in tasks
  {
    assert Indices(n)[k] == k;
    assert k in multiset(Indices(n));
  }

  lemma SecondSetupOk(x: Join, ps: seq<nat>, b: Build)
    requires FirstRan(x, b) && AreJobs(b.jobs, AfterFirst(b, 0), FirstLayout(x.R, x.r2, x.t), x.r1, ps)
    ensures SecondPassStores.Ok(SecondSetup(x, b.writers, b.rSize, b.jobs))
  {
    RoundsArePasses(x, b);
    FirstPassPlaces(x.R, x.builders, x.r1, x.r2, x.t, b.rSize, Regulated(FirstRounds(x, b.writers, b.rSize, b.sSize), b.rounds, 0));
    JobsAreSpaced(b.jobs, AfterFirst(b, 0), x.R, x.r1, x.r2, x.t, ps, b.rSize);
    ConcurrentScatter.SerialEnough(x.t, x.r2, b.jobs, b.rSize);
  }

  lemma AllGiven(x: Join, ps: seq<nat>, b: Build)
    requires |b.jobs| == |ps| && multiset(b.tasks) == multiset(Indices(|ps|))
    ensures SecondPassStores.AllTasksGiven(SecondSetup(x, b.writers, b.rSize, b.jobs), b.tasks)
  {
    forall k: nat | k < |ps|
      ensures k in b.tasks
    {
      IndexGiven(b.tasks, |ps|, k);
    }
  }

  /** The second pass puts all its tasks in place, and adds their join tasks. */
  lemma SecondIsPass(x: Join, ps: seq<nat>, b: Build) returns (run: PassRun)
    requires FirstRan(x, b) && SecondRan(x, ps, b)
    ensures Ran(SerialPasses(x.t, x.r2, b.jobs, b.rSize), x.t, run) && After(run) == AfterSecond(b)
    ensures multiset(Added(b)) == multiset(QueueOf(Plain(x), ps)) && MaxOf(Maxima(b)) == Largest(Added(b))
  {
    var setup := SecondSetup(x, b.writers, b.rSize, b.jobs);
    SecondSetupOk(x, ps, b);
    AllGiven(x, ps, b);
    run := SecondPassStores.SecondPassIsRight(setup, TasksAt(x, ps), b.tasks, b.second);
    SecondPassQueueIs(x, setup.plan, ps, b.tasks);
  }

  /** The bandwidth-regulated join, for every number of writers, under every schedule of all its phases:
      each non-empty cluster of the build side is joined exactly once, or in pieces, with its first-pass
      cluster of the probe side, and the totals are those of the nested-loop join. */
  lemma RegulatedJoinIsRight(x: Join, ps: seq<nat>, bs: seq<nat>, b: Build, fetched: seq<seq<Task>>)
    requires !x.pair && 0 < x.probers && FirstLevel(x, ps, bs)
    requires FirstRan(x, b) && SecondRan(x, ps, b) && SkewsRan(x, bs, b)
    requires multiset(FlattenTasks(fetched)) == multiset(Added(b)) + multiset(QueueOf(Skewed(x), bs))
    ensures IsJoin(AllTotals(fetched, MemAfter(AfterSecond(b), b.skews, |b.skews|), AfterFirst(b, 1)), x.R, x.S)
  {
    RoundsArePasses(x, b);
    var plan := FirstRounds(x, b.writers, b.rSize, b.sSize);
    var run := SecondIsPass(x, ps, b);
    var side := Side(b.rSize, Regulated(plan, b.rounds, 0), b.jobs, run, b.skews);
    AsymmetricJoinIsRight(x, ps, bs, side, b.sSize, Regulated(plan, b.rounds, 1), fetched);
  }

  /** And the tables of every join task fit what the shared maximum gives to a thread. */
  lemma RegulatedTasksFit(x: Join, ps: seq<nat>, bs: seq<nat>, b: Build, scale: nat, bkt: nat, cap: nat, t: Task)
    requires FirstRan(x, b) && SecondRan(x, ps, b) && 0 < x.probers && 2 <= scale && 0 < cap
    requires t in Added(b) || t in QueueOf(Skewed(x), bs)
    ensures 0 < t.rNum <= JoinMemory.Shared(x, Maxima(b), bs)
    ensures JoinMemory.TablesFitFor(t.rNum, JoinMemory.Shared(x, Maxima(b), bs), scale, bkt, cap)
  {
    var run := SecondIsPass(x, ps, b);
    JoinMemory.EveryTaskFits(x, ps, bs, Added(b), Maxima(b), scale, bkt, cap, t);
  }
}
