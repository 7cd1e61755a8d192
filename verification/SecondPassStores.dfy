/** The second pass with its stores: a thread that has a task to partition makes the stores of that
    task, with or without write-combining buffers, and goes on to its join tasks when they are made.
    The histogram slice and the buffers that a task was counted into stay its own, whichever thread
    goes on with it. */
module SecondPassStores {
  import opened Bits
  import opened Relations
  import opened Runs
  import opened Tasks
  import opened TaskCreation
  import opened Passes
  import opened SecondPassQueues
  import Swwcb
  import SwwcbProofs
  import ConcurrentScatter

  datatype Stores = WithBuffers(b: Swwcb.State) | Straight(u: ConcurrentScatter.State)

  datatype Whole = Whole(q: SecondPassQueues.State<nat>, m: Stores)

  /** Tasks are the writers of `c`; there is no barrier among them. */
  datatype Setup = Setup(c: Swwcb.Config, pad: nat, plan: SecondPassQueues.Plan)

  ghost predicate Ok(x: Setup) {
    && Swwcb.Valid(x.c) && ConcurrentScatter.Padded(x.c, x.pad) && !x.c.barrier
    && 0 < x.plan.writers && 0 < x.plan.threads
  }

  function Scatter(x: Setup): ConcurrentScatter.Plan { ConcurrentScatter.Plan(x.c, x.pad, false) }

  ghost predicate StoreInit(x: Setup, m: Stores) {
    match m
    case WithBuffers(b) => Swwcb.Init(x.c, b)
    case Straight(u) => ConcurrentScatter.Init(Scatter(x), u)
  }

  /** One step of partitioning task `k`. */
  ghost predicate StoreStep(x: Setup, m: Stores, m': Stores, k: nat) {
    match m
    case WithBuffers(b) =>
      && Swwcb.Shape(x.c) && Swwcb.StateShape(x.c, b) && k < |b.ws| && !b.ws[k].pc.Done? && Swwcb.Safe(x.c, b, k)
      && m' == WithBuffers(Swwcb.Step(x.c, b, k))
    case Straight(u) => m'.Straight? && ConcurrentScatter.Step(Scatter(x), u, m'.u, k)
  }

  ghost predicate Stored(x: Setup, m: Stores, k: nat) {
    match m
    case WithBuffers(b) => k < |b.ws| && b.ws[k].pc.Done?
    case Straight(u) => ConcurrentScatter.WriterDone(Scatter(x), u, k)
  }

  /** Is thread `w` partitioning task `k`? */
  predicate Partitions(x: Setup, pc: Pc<nat>, w: nat, k: nat) {
    (pc.Counted? && w < x.plan.writers && pc.item.task == k) || (pc.Got2? && pc.item.task == k)
  }

  ghost predicate Init(x: Setup, tasks: seq<nat>, s: Whole) {
    SecondPassQueues.Init(x.plan, tasks, s.q) && StoreInit(x, s.m)
  }

  ghost predicate Store(x: Setup, s: Whole, s': Whole, w: nat) {
    s'.q == s.q && w < |s.q.ts| && exists k: nat :: Partitions(x, s.q.ts[w], w, k) && StoreStep(x, s.m, s'.m, k)
  }

  ghost predicate Proceed(x: Setup, sub: nat -> nat -> Task, s: Whole, s': Whole, w: nat) {
    && s'.m == s.m && w < |s.q.ts| && SecondPassQueues.Step(x.plan, sub, s.q, s'.q, w)
    && forall k: nat :: Partitions(x, s.q.ts[w], w, k) ==> Stored(x, s.m, k)
  }

  ghost predicate Step(x: Setup, sub: nat -> nat -> Task, s: Whole, s': Whole, w: nat) {
    Store(x, s, s', w) || Proceed(x, sub, s, s', w)
  }

  ghost predicate Next(x: Setup, sub: nat -> nat -> Task, s: Whole, s': Whole) {
    exists w: nat :: Step(x, sub, s, s', w)
  }

  ghost predicate Run(x: Setup, sub: nat -> nat -> Task, tasks: seq<nat>, tr: seq<Whole>) {
    IsRun(tr, (s: Whole) => Init(x, tasks, s), (s: Whole, s': Whole) => Next(x, sub, s, s'))
  }

  // ----- tasks that go on are stored -----

  ghost predicate ItemStored(x: Setup, m: Stores, items: seq<Item<nat>>, i: nat)
    requires i < |items|
  {
    Stored(x, m, items[i].task)
  }

  ghost predicate AllStored(x: Setup, s: Whole) {
    && (forall i: nat {:trigger ItemStored(x, s.m, s.q.done, i)} :: i < |s.q.done| ==> ItemStored(x, s.m, s.q.done, i))
    && (forall w: nat :: w < |s.q.ts| && s.q.ts[w].Adding? ==> Stored(x, s.m, s.q.ts[w].item.task))
  }

  lemma StoredStays(x: Setup, m: Stores, m': Stores, k: nat, k': nat)
    requires StoreStep(x, m, m', k') && Stored(x, m, k)
    ensures Stored(x, m', k)
  {
  }

  lemma StoreKeepsAllStored(x: Setup, s: Whole, s': Whole, w: nat)
    requires Store(x, s, s', w) && AllStored(x, s)
    ensures AllStored(x, s')
  {
    var k: nat :| Partitions(x, s.q.ts[w], w, k) && StoreStep(x, s.m, s'.m, k);
    forall i: nat | i < |s'.q.done|
      ensures ItemStored(x, s'.m, s'.q.done, i)
    {
      assert ItemStored(x, s.m, s.q.done, i);
      StoredStays(x, s.m, s'.m, s.q.done[i].task, k);
    }
    forall v: nat | v < |s'.q.ts| && s'.q.ts[v].Adding?
      ensures Stored(x, s'.m, s'.q.ts[v].item.task)
    {
      StoredStays(x, s.m, s'.m, s.q.ts[v].item.task, k);
    }
  }

  /** What a queue step does to the finished tasks and to the thread that makes it. */
  lemma QueueStep(x: Setup, sub: nat -> nat -> Task, q: SecondPassQueues.State<nat>, q': SecondPassQueues.State<nat>, w: nat)
    requires SecondPassQueues.Step(x.plan, sub, q, q', w)
    ensures w < |q.ts| == |q'.ts| && forall v: nat :: v < |q.ts| && v != w ==> q'.ts[v] == q.ts[v]
    ensures q'.done == q.done || (q.ts[w].Adding? && q'.done == q.done + [q.ts[w].item])
    ensures q'.ts[w].Adding? ==>
      (q.ts[w].Adding? && q.ts[w].item == q'.ts[w].item) || Partitions(x, q.ts[w], w, q'.ts[w].item.task)
  {
  }

  lemma ProceedKeepsAllStored(x: Setup, sub: nat -> nat -> Task, s: Whole, s': Whole, w: nat)
    requires Proceed(x, sub, s, s', w) && AllStored(x, s)
    ensures AllStored(x, s')
  {
    QueueStep(x, sub, s.q, s'.q, w);
    forall i: nat | i < |s'.q.done|
      ensures ItemStored(x, s'.m, s'.q.done, i)
    {
      assert i < |s.q.done| ==> ItemStored(x, s.m, s.q.done, i);
    }
  }

  // ----- the two halves of a run -----

  /** The stores so far, as a run of the writers. */
  ghost predicate StoreRun(x: Setup, m: Stores, m0: Stores, bt: seq<Swwcb.State>, ut: seq<ConcurrentScatter.State>)
    requires Swwcb.Shape(x.c)
  {
    match m
    case WithBuffers(b) => SwwcbProofs.Run(x.c, bt) && bt[|bt| - 1] == b && m0 == WithBuffers(bt[0])
    case Straight(u) => ConcurrentScatter.Run(Scatter(x), ut) && ut[|ut| - 1] == u && m0 == Straight(ut[0])
  }

  lemma OneStoreMore(x: Setup, m: Stores, m': Stores, m0: Stores, k: nat, bt: seq<Swwcb.State>, ut: seq<ConcurrentScatter.State>)
    returns (bt': seq<Swwcb.State>, ut': seq<ConcurrentScatter.State>)
    requires Ok(x) && StoreRun(x, m, m0, bt, ut) && StoreStep(x, m, m', k)
    ensures StoreRun(x, m', m0, bt', ut')
  {
    bt', ut' := bt, ut;
    if m.WithBuffers? {
      assert Swwcb.Enabled(x.c, m.b, k);
      OneMore(bt, (s: Swwcb.State) => Swwcb.Init(x.c, s), (s: Swwcb.State, s': Swwcb.State) => Swwcb.Next(x.c, s, s'), m'.b);
      bt' := bt + [m'.b];
    } else {
      OneMore(ut, (s: ConcurrentScatter.State) => ConcurrentScatter.Init(Scatter(x), s),
              (s: ConcurrentScatter.State, s': ConcurrentScatter.State) => ConcurrentScatter.Next(Scatter(x), s, s'), m'.u);
      ut' := ut + [m'.u];
    }
  }

  lemma OneQueueStepMore(x: Setup, sub: nat -> nat -> Task, tasks: seq<nat>, s: Whole, s': Whole, w: nat, qt: seq<SecondPassQueues.State<nat>>)
    requires Proceed(x, sub, s, s', w) && SecondPassQueues.Run(x.plan, sub, tasks, qt) && qt[|qt| - 1] == s.q
    ensures SecondPassQueues.Run(x.plan, sub, tasks, qt + [s'.q])
  {
    OneMore(qt, (q: SecondPassQueues.State<nat>) => SecondPassQueues.Init(x.plan, tasks, q),
            (q: SecondPassQueues.State<nat>, q': SecondPassQueues.State<nat>) => SecondPassQueues.Next(x.plan, sub, q, q'), s'.q);
  }

  lemma StoreMore(x: Setup, s: Whole, s': Whole, w: nat, m0: Stores, bt: seq<Swwcb.State>, ut: seq<ConcurrentScatter.State>)
    returns (bt': seq<Swwcb.State>, ut': seq<ConcurrentScatter.State>)
    requires Ok(x) && Store(x, s, s', w) && AllStored(x, s) && StoreRun(x, s.m, m0, bt, ut)
    ensures s'.q == s.q && StoreRun(x, s'.m, m0, bt', ut') && AllStored(x, s')
  {
    var k: nat :| Partitions(x, s.q.ts[w], w, k) && StoreStep(x, s.m, s'.m, k);
    bt', ut' := OneStoreMore(x, s.m, s'.m, m0, k, bt, ut);
    StoreKeepsAllStored(x, s, s', w);
  }

  lemma ProceedMore(x: Setup, sub: nat -> nat -> Task, tasks: seq<nat>, s: Whole, s': Whole, w: nat, qt: seq<SecondPassQueues.State<nat>>)
    requires Proceed(x, sub, s, s', w) && AllStored(x, s)
    requires SecondPassQueues.Run(x.plan, sub, tasks, qt) && qt[|qt| - 1] == s.q
    ensures s'.m == s.m && SecondPassQueues.Run(x.plan, sub, tasks, qt + [s'.q]) && AllStored(x, s')
  {
    OneQueueStepMore(x, sub, tasks, s, s', w, qt);
    ProceedKeepsAllStored(x, sub, s, s', w);
  }

  lemma OneStepMore(x: Setup, sub: nat -> nat -> Task, tasks: seq<nat>, s: Whole, s': Whole, m0: Stores,
                    qt: seq<SecondPassQueues.State<nat>>, bt: seq<Swwcb.State>, ut: seq<ConcurrentScatter.State>)
    returns (qt': seq<SecondPassQueues.State<nat>>, bt': seq<Swwcb.State>, ut': seq<ConcurrentScatter.State>)
    requires Ok(x) && Next(x, sub, s, s') && AllStored(x, s) && StoreRun(x, s.m, m0, bt, ut)
    requires SecondPassQueues.Run(x.plan, sub, tasks, qt) && qt[|qt| - 1] == s.q
    ensures SecondPassQueues.Run(x.plan, sub, tasks, qt') && qt'[|qt'| - 1] == s'.q
    ensures StoreRun(x, s'.m, m0, bt', ut') && AllStored(x, s')
  {
    qt', bt', ut' := qt, bt, ut;
    var w: nat :| Step(x, sub, s, s', w);
    if Store(x, s, s', w) {
      bt', ut' := StoreMore(x, s, s', w, m0, bt, ut);
    } else {
      ProceedMore(x, sub, tasks, s, s', w, qt);
      qt' := qt + [s'.q];
    }
  }

  /** Every run is a run of the queues and a run of the writers, and whoever adds join tasks has
      partitioned the task before. */
  lemma {:induction false} Halves(x: Setup, sub: nat -> nat -> Task, tasks: seq<nat>, tr: seq<Whole>, i: nat)
    returns (qt: seq<SecondPassQueues.State<nat>>, bt: seq<Swwcb.State>, ut: seq<ConcurrentScatter.State>)
    requires Ok(x) && Run(x, sub, tasks, tr) && i < |tr|
    ensures SecondPassQueues.Run(x.plan, sub, tasks, qt) && qt[|qt| - 1] == tr[i].q
    ensures StoreRun(x, tr[i].m, tr[0].m, bt, ut) && AllStored(x, tr[i])
  {
    if i == 0 {
      qt := [tr[0].q];
      bt := if tr[0].m.WithBuffers? then [tr[0].m.b] else [];
      ut := if tr[0].m.Straight? then [tr[0].m.u] else [];
    } else {
      qt, bt, ut := Halves(x, sub, tasks, tr, i - 1);
      StepOf(tr, (s: Whole) => Init(x, tasks, s), (s: Whole, s': Whole) => Next(x, sub, s, s'), i);
      qt, bt, ut := OneStepMore(x, sub, tasks, tr[i - 1], tr[i], tr[0].m, qt, bt, ut);
    }
  }

  // ----- the end -----

  ghost function Memory(m: Stores): seq<Tuple> { if m.WithBuffers? then m.b.mem else m.u.mem }

  ghost predicate AllTasksGiven(x: Setup, tasks: seq<nat>) {
    forall k: nat :: k < |x.c.inputs| ==> k in tasks
  }

  /** A run of the writers that have all stored their tasks is a finished pass. */
  lemma StoredIsFinished(x: Setup, m: Stores, m0: Stores, bt: seq<Swwcb.State>, ut: seq<ConcurrentScatter.State>) returns (run: PassRun)
    requires Ok(x) && StoreRun(x, m, m0, bt, ut) && forall k: nat :: k < |x.c.inputs| ==> Stored(x, m, k)
    ensures Ran(x.c, x.pad, run) && Before(run) == Memory(m0) && After(run) == Memory(m)
  {
    if m.WithBuffers? {
      SwwcbProofs.RunHasInv(x.c, bt, |bt| - 1);
      forall k: nat | k < |m.b.ws|
        ensures m.b.ws[k].pc.Done?
      {
        assert Stored(x, m, k);
      }
      run := Buffered(bt);
    } else {
      ConcurrentScatter.RunHasInv(Scatter(x), ut, |ut| - 1);
      forall k: nat | k < |m.u.ts|
        ensures ConcurrentScatter.WriterDone(Scatter(x), m.u, k)
      {
        assert Stored(x, m, k);
      }
      run := Unbuffered(false, ut);
    }
  }

  /** When all threads are done, the pass has partitioned every task, as a pass in which every task had
      a thread of its own; and the join queue holds the join tasks of all of them, each once. */
  lemma SecondPassIsRight(x: Setup, sub: nat -> nat -> Task, tasks: seq<nat>, tr: seq<Whole>) returns (run: PassRun)
    requires Ok(x) && Run(x, sub, tasks, tr) && SecondPassQueues.AllDone(tr[|tr| - 1].q) && AllTasksGiven(x, tasks)
    ensures Ran(x.c, x.pad, run) && Before(run) == Memory(tr[0].m) && After(run) == Memory(tr[|tr| - 1].m)
    ensures multiset(tr[|tr| - 1].q.join) == multiset(QueueOf(JoinTasksOf(x.plan, sub), tasks))
    ensures MaxOf(tr[|tr| - 1].q.maxes) == Largest(tr[|tr| - 1].q.join)
  {
    var s := tr[|tr| - 1];
    var qt, bt, ut := Halves(x, sub, tasks, tr, |tr| - 1);
    EveryTaskOnce(x.plan, sub, tasks, qt);
    forall k: nat | k < |x.c.inputs|
      ensures Stored(x, s.m, k)
    {
      GivenIsStored(x, s, tasks, k);
    }
    run := StoredIsFinished(x, s.m, tr[0].m, bt, ut);
  }

  lemma GivenIsStored(x: Setup, s: Whole, tasks: seq<nat>, k: nat)
    requires AllStored(x, s) && multiset(TasksOf(s.q.done)) == multiset(tasks) && k in tasks
    ensures Stored(x, s.m, k)
  {
    assert k in multiset(TasksOf(s.q.done));
    var i: nat :| i < |s.q.done| && TasksOf(s.q.done)[i] == k;
    assert ItemStored(x, s.m, s.q.done, i);
  }

  // ----- no deadlock -----

  lemma {:induction false} HeldAtLeast(ts: seq<Pc<nat>>, w: nat, k: nat)
    requires w < |ts|
    ensures TaskCount(ts[w], k) <= Held(ts, k)
  {
    if w < |ts| - 1 {
      HeldAtLeast(ts[..|ts| - 1], w, k);
    }
  }

  /** A task in a thread's hands is one of those given. */
  lemma HeldIsGiven(x: Setup, sub: nat -> nat -> Task, tasks: seq<nat>, q: SecondPassQueues.State<nat>, w: nat, k: nat)
    requires SecondPassQueues.Inv(x.plan, sub, tasks, q) && w < |q.ts| && Partitions(x, q.ts[w], w, k)
    ensures k in tasks
  {
    HeldAtLeast(q.ts, w, k);
    assert AllTasks(q, k) == multiset(tasks)[k];
    assert k in multiset(tasks);
  }

  lemma StoreGoesOn(x: Setup, m: Stores, m0: Stores, bt: seq<Swwcb.State>, ut: seq<ConcurrentScatter.State>, k: nat) returns (m': Stores)
    requires Ok(x) && StoreRun(x, m, m0, bt, ut) && k < |x.c.inputs| && !Stored(x, m, k)
    ensures StoreStep(x, m, m', k)
  {
    if m.WithBuffers? {
      SwwcbProofs.RunHasInv(x.c, bt, |bt| - 1);
      SwwcbProofs.NoStoreOutside(x.c, bt, |bt| - 1, k);
      m' := WithBuffers(Swwcb.Step(x.c, m.b, k));
    } else {
      ConcurrentScatter.RunHasInv(Scatter(x), ut, |ut| - 1);
      ConcurrentScatter.NeverStuck(Scatter(x), m.u, k);
      var u' :| ConcurrentScatter.Step(Scatter(x), m.u, u', k);
      m' := Straight(u');
    }
  }

  /** Until all threads are done, one of them can store, or go on. */
  lemma NeverStuck(x: Setup, sub: nat -> nat -> Task, tasks: seq<nat>, tr: seq<Whole>, i: nat)
    requires Ok(x) && Run(x, sub, tasks, tr) && i < |tr| && !SecondPassQueues.AllDone(tr[i].q)
    requires forall t :: t in tasks ==> t < |x.c.inputs|
    ensures exists s' :: Next(x, sub, tr[i], s')
  {
    var s := tr[i];
    var qt, bt, ut := Halves(x, sub, tasks, tr, i);
    SecondPassQueues.RunHasInv(x.plan, sub, tasks, qt, |qt| - 1);
    if w: nat, k: nat :| w < |s.q.ts| && Partitions(x, s.q.ts[w], w, k) && !Stored(x, s.m, k) {
      HeldIsGiven(x, sub, tasks, s.q, w, k);
      var m' := StoreGoesOn(x, s.m, tr[0].m, bt, ut, k);
      assert Store(x, s, Whole.Whole(s.q, m'), w);
      assert Step(x, sub, s, Whole.Whole(s.q, m'), w);
      assert Next(x, sub, s, Whole.Whole(s.q, m'));
    } else {
      SecondPassQueues.NeverStuck(x.plan, sub, tasks, s.q);
      var q' :| SecondPassQueues.Next(x.plan, sub, s.q, q');
      var w: nat :| SecondPassQueues.Step(x.plan, sub, s.q, q', w);
      QueueStep(x, sub, s.q, q', w);
      assert Step(x, sub, s, Whole.Whole(q', s.m), w);
      assert Next(x, sub, s, Whole.Whole(q', s.m));
    }
  }

  // ----- who writes -----

  /** Every step that changes the arrays, the buffers or the offsets is one of a thread with permission
      to write; a task that another thread has counted stays as it is until a writer has it. */
  lemma OnlyWritersStore(x: Setup, sub: nat -> nat -> Task, tasks: seq<nat>, tr: seq<Whole>, i: nat, w: nat)
    requires Ok(x) && Run(x, sub, tasks, tr) && i + 1 < |tr| && Step(x, sub, tr[i], tr[i + 1], w)
    ensures tr[i + 1].m != tr[i].m ==> w < x.plan.writers
  {
    var qt, bt, ut := Halves(x, sub, tasks, tr, i);
    SecondPassQueues.RunHasInv(x.plan, sub, tasks, qt, |qt| - 1);
    if x.plan.writers <= w < x.plan.threads {
      OnlyWritersPartition(x.plan, sub, tasks, qt, |qt| - 1, w);
    }
  }

  // ----- every run ends -----

  /** The stores that are still to be made. */
  function StoreWork(x: Setup, m: Stores): nat {
    match m
    case WithBuffers(b) => SwwcbProofs.Work(x.c, b.ws)
    case Straight(u) => ConcurrentScatter.Work(Scatter(x), u.ts)
  }

  function StoreBudget(x: Setup, m: Stores): nat {
    if m.WithBuffers? then SumTo(SwwcbProofs.Budget(x.c), |x.c.inputs|) else SumTo(ConcurrentScatter.Budget(Scatter(x)), |x.c.inputs|)
  }

  lemma StoreUsesOneUp(x: Setup, m: Stores, m': Stores, k: nat)
    requires StoreStep(x, m, m', k)
    ensures StoreWork(x, m') < StoreWork(x, m)
  {
    match m
    case WithBuffers(b) =>
      SwwcbProofs.ActUsesOneUp(x.c, k, b.ws[k]);
      SwwcbProofs.WorkDrops(x.c, b.ws, k, Swwcb.Act(x.c, k, b.ws[k]).0);
    case Straight(u) =>
      ConcurrentScatter.StepUsesOneUp(Scatter(x), u, m'.u, k);
  }

  lemma StoresWithinBudget(x: Setup, m: Stores)
    requires StoreInit(x, m)
    ensures StoreWork(x, m) == StoreBudget(x, m)
  {
    match m
    case WithBuffers(b) => SwwcbProofs.StartWithinBudget(x.c, b);
    case Straight(u) => ConcurrentScatter.StartWithinBudget(Scatter(x), u);
  }

  function WholeLeft(x: Setup, s: Whole): nat { TotalLeft(x.plan, s.q) + StoreWork(x, s.m) }

  lemma NextUsesOneUp(x: Setup, sub: nat -> nat -> Task, s: Whole, s': Whole)
    requires Next(x, sub, s, s')
    ensures WholeLeft(x, s') < WholeLeft(x, s)
  {
    var w: nat :| Step(x, sub, s, s', w);
    if Store(x, s, s', w) {
      var k: nat :| Partitions(x, s.q.ts[w], w, k) && StoreStep(x, s.m, s'.m, k);
      StoreUsesOneUp(x, s.m, s'.m, k);
    } else {
      SecondPassQueues.StepUsesOneUp(x.plan, sub, s.q, s'.q, w);
    }
  }

  /** No run is longer than the stores of all tasks and the steps of the queues allow. */
  lemma RunsEnd(x: Setup, sub: nat -> nat -> Task, tasks: seq<nat>, tr: seq<Whole>)
    requires Run(x, sub, tasks, tr)
    ensures |tr| - 1 <= SecondPassQueues.Budget(x.plan, |tasks|) + StoreBudget(x, tr[0].m)
  {
    forall s, s' | Next(x, sub, s, s')
      ensures WholeLeft(x, s') < WholeLeft(x, s)
    {
      NextUsesOneUp(x, sub, s, s');
    }
    Bounded(tr, (s: Whole) => Init(x, tasks, s), (s: Whole, s': Whole) => Next(x, sub, s, s'), (s: Whole) => true,
            (s: Whole) => WholeLeft(x, s), |tr| - 1);
    SecondPassQueues.StartWithinBudget(x.plan, tasks, tr[0].q);
    StoresWithinBudget(x, tr[0].m);
  }
}
