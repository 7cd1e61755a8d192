/** The second pass of the bandwidth-regulated join.  Every thread fetches first-pass tasks and counts
    them into a histogram slice of its own; the first `writers` threads also partition them and add
    their join tasks, the others hand them on through a second queue, which the writers empty after a
    barrier.  With as many writers as threads it is the second pass of the other joins. */
module SecondPassQueues {
  import opened Bits
  import opened Relations
  import opened Runs
  import opened Tasks
  import opened TaskCreation

  /** A task and the histogram slice it was counted into. */
  datatype Item<T> = Item(task: T, slice: nat)

  datatype Pc<T> =
    | Fetch1                                         // about to take a task from the first queue
    | Got1(task: T)                                  // about to fetch-and-add the slice counter
    | Counted(item: Item<T>)                         // partitioning the task, or about to hand it on
    | Wait                                           // at the barrier
    | Fetch2                                         // about to take a task from the second queue
    | Got2(item: Item<T>)                            // partitioning it
    | Adding(item: Item<T>, p: nat, first: bool)     // about to add the join task of cluster p
    | Done

  datatype State<T> = State(part: seq<T>, mid: seq<Item<T>>, idx: nat, done: seq<Item<T>>,
                            join: seq<Task>, maxes: seq<nat>, ts: seq<Pc<T>>)

  /** The threads, how many of them write, the clusters of a task, and whether its probe side is
      partitioned as well. */
  datatype Plan = Plan(threads: nat, writers: nat, fan: nat, pair: bool)

  ghost predicate Init<T>(plan: Plan, tasks: seq<T>, s: State<T>) {
    s == State(tasks, [], 0, [], [], seq(plan.threads, _ => 0), seq(plan.threads, _ => Fetch1))
  }

  ghost predicate Get1<T>(s: State<T>, s': State<T>, w: nat) {
    && w < |s.ts| && s.ts[w].Fetch1?
    && s' == (if s.part != [] then s.(part := s.part[1..], ts := s.ts[w := Got1(s.part[0])]) else s.(ts := s.ts[w := Wait]))
  }

  /** `__sync_fetch_and_add(&idx_2nd_pass, 1)` */
  ghost predicate TakeSlice<T>(s: State<T>, s': State<T>, w: nat) {
    && w < |s.ts| && s.ts[w].Got1?
    && s' == s.(idx := s.idx + 1, ts := s.ts[w := Counted(Item(s.ts[w].task, s.idx))])
  }

  ghost predicate Finish1<T>(plan: Plan, s: State<T>, s': State<T>, w: nat) {
    && w < |s.ts| && s.ts[w].Counted?
    && s' == (if w < plan.writers then s.(ts := s.ts[w := Adding(s.ts[w].item, 0, true)])
              else s.(mid := [s.ts[w].item] + s.mid, ts := s.ts[w := Fetch1]))
  }

  predicate Past<T>(pc: Pc<T>) { pc.Fetch2? || pc.Got2? || (pc.Adding? && !pc.first) || pc.Done? }

  /** The barrier opens when every thread has arrived. */
  ghost predicate Pass<T>(plan: Plan, s: State<T>, s': State<T>, w: nat) {
    && w < |s.ts| && s.ts[w].Wait?
    && (forall v: nat :: v < |s.ts| ==> s.ts[v].Wait? || Past(s.ts[v]))
    && s' == s.(ts := s.ts[w := if w < plan.writers then Fetch2 else Done])
  }

  ghost predicate Get2<T>(s: State<T>, s': State<T>, w: nat) {
    && w < |s.ts| && s.ts[w].Fetch2?
    && s' == (if s.mid != [] then s.(mid := s.mid[1..], ts := s.ts[w := Got2(s.mid[0])]) else s.(ts := s.ts[w := Done]))
  }

  ghost predicate Finish2<T>(s: State<T>, s': State<T>, w: nat) {
    && w < |s.ts| && s.ts[w].Got2?
    && s' == s.(ts := s.ts[w := Adding(s.ts[w].item, 0, false)])
  }

  /** One cluster of the task: a join task if it is not empty, and the thread's own maximum. */
  ghost predicate AddOne<T>(plan: Plan, sub: T -> nat -> Task, s: State<T>, s': State<T>, w: nat) {
    && w < |s.ts| == |s.maxes| && s.ts[w].Adding? && s.ts[w].p < plan.fan
    && var Adding(item, p, first) := s.ts[w];
       var t := sub(item.task)(p);
       s' == s.(join := KeptOnly(plan.pair, All, t, s.join),
                maxes := if Kept(plan.pair, All, t) then s.maxes[w := Larger(s.maxes[w], t.rNum)] else s.maxes,
                ts := s.ts[w := Adding(item, p + 1, first)])
  }

  ghost predicate AddedAll<T>(plan: Plan, s: State<T>, s': State<T>, w: nat) {
    && w < |s.ts| && s.ts[w].Adding? && s.ts[w].p == plan.fan
    && s' == s.(done := s.done + [s.ts[w].item], ts := s.ts[w := if s.ts[w].first then Fetch1 else Fetch2])
  }

  ghost predicate Step<T>(plan: Plan, sub: T -> nat -> Task, s: State<T>, s': State<T>, w: nat) {
    || Get1(s, s', w) || TakeSlice(s, s', w) || Finish1(plan, s, s', w)
    || Pass(plan, s, s', w) || Get2(s, s', w) || Finish2(s, s', w)
    || AddOne(plan, sub, s, s', w) || AddedAll(plan, s, s', w)
  }

  ghost predicate Next<T>(plan: Plan, sub: T -> nat -> Task, s: State<T>, s': State<T>) {
    exists w: nat :: Step(plan, sub, s, s', w)
  }

  // ----- conservation of tasks and of slices -----

  function TaskCount<T(==)>(pc: Pc<T>, x: T): nat {
    match pc
    case Got1(t) => if t == x then 1 else 0
    case Counted(item) => if item.task == x then 1 else 0
    case Got2(item) => if item.task == x then 1 else 0
    case Adding(item, _, _) => if item.task == x then 1 else 0
    case _ => 0
  }

  function SliceCount<T>(pc: Pc<T>, x: nat): nat {
    match pc
    case Counted(item) => if item.slice == x then 1 else 0
    case Got2(item) => if item.slice == x then 1 else 0
    case Adding(item, _, _) => if item.slice == x then 1 else 0
    case _ => 0
  }

  ghost function Held<T>(ts: seq<Pc<T>>, x: T): nat {
    if ts == [] then 0 else Held(ts[..|ts| - 1], x) + TaskCount(ts[|ts| - 1], x)
  }

  ghost function HeldSlices<T>(ts: seq<Pc<T>>, x: nat): nat {
    if ts == [] then 0 else HeldSlices(ts[..|ts| - 1], x) + SliceCount(ts[|ts| - 1], x)
  }

  function TasksOf<T>(items: seq<Item<T>>): seq<T> {
    seq(|items|, (i: nat) requires i < |items| => items[i].task)
  }

  function Slices<T>(items: seq<Item<T>>): seq<nat> {
    seq(|items|, (i: nat) requires i < |items| => items[i].slice)
  }

  lemma {:induction false} HeldUpdate<T>(ts: seq<Pc<T>>, w: nat, pc: Pc<T>, x: T)
    requires w < |ts|
    ensures Held(ts[w := pc], x) + TaskCount(ts[w], x) == Held(ts, x) + TaskCount(pc, x)
  {
    var n := |ts| - 1;
    if w == n {
      assert ts[w := pc][..n] == ts[..n];
    } else {
      assert ts[w := pc][..n] == ts[..n][w := pc];
      HeldUpdate(ts[..n], w, pc, x);
    }
  }

  lemma {:induction false} SlicesUpdate<T>(ts: seq<Pc<T>>, w: nat, pc: Pc<T>, x: nat)
    requires w < |ts|
    ensures HeldSlices(ts[w := pc], x) + SliceCount(ts[w], x) == HeldSlices(ts, x) + SliceCount(pc, x)
  {
    var n := |ts| - 1;
    if w == n {
      assert ts[w := pc][..n] == ts[..n];
    } else {
      assert ts[w := pc][..n] == ts[..n][w := pc];
      SlicesUpdate(ts[..n], w, pc, x);
    }
  }

  lemma TasksCons<T>(a: Item<T>, items: seq<Item<T>>, x: T)
    ensures multiset(TasksOf([a] + items))[x] == multiset(TasksOf(items))[x] + (if a.task == x then 1 else 0)
  {
    assert TasksOf([a] + items) == [a.task] + TasksOf(items);
  }

  lemma SlicesCons<T>(a: Item<T>, items: seq<Item<T>>, i: nat)
    ensures multiset(Slices([a] + items))[i] == multiset(Slices(items))[i] + (if a.slice == i then 1 else 0)
  {
    assert Slices([a] + items) == [a.slice] + Slices(items);
  }

  lemma TasksSnoc<T>(items: seq<Item<T>>, a: Item<T>, x: T)
    ensures multiset(TasksOf(items + [a]))[x] == multiset(TasksOf(items))[x] + (if a.task == x then 1 else 0)
  {
    assert TasksOf(items + [a]) == TasksOf(items) + [a.task];
  }

  lemma SlicesSnoc<T>(items: seq<Item<T>>, a: Item<T>, i: nat)
    ensures multiset(Slices(items + [a]))[i] == multiset(Slices(items))[i] + (if a.slice == i then 1 else 0)
  {
    assert Slices(items + [a]) == Slices(items) + [a.slice];
  }

  lemma PartHead<T>(part: seq<T>, x: T)
    requires part != []
    ensures multiset(part)[x] == multiset(part[1..])[x] + (if part[0] == x then 1 else 0)
  {
    assert part == [part[0]] + part[1..];
  }

  /** How often a task is somewhere: in a queue, in a thread's hands, or partitioned. */
  ghost function AllTasks<T>(s: State<T>, x: T): nat {
    multiset(s.part)[x] + Held(s.ts, x) + multiset(TasksOf(s.mid))[x] + multiset(TasksOf(s.done))[x]
  }

  /** How many tasks own a slice. */
  ghost function Owners<T>(s: State<T>, i: nat): nat {
    HeldSlices(s.ts, i) + multiset(Slices(s.mid))[i] + multiset(Slices(s.done))[i]
  }

  /** The threads that have a task and no slice yet. */
  ghost function Uncounted<T>(ts: seq<Pc<T>>): nat {
    if ts == [] then 0 else Uncounted(ts[..|ts| - 1]) + (if ts[|ts| - 1].Got1? then 1 else 0)
  }

  lemma {:induction false} UncountedUpdate<T>(ts: seq<Pc<T>>, w: nat, pc: Pc<T>)
    requires w < |ts|
    ensures Uncounted(ts[w := pc]) + (if ts[w].Got1? then 1 else 0) == Uncounted(ts) + (if pc.Got1? then 1 else 0)
  {
    var n := |ts| - 1;
    if w == n {
      assert ts[w := pc][..n] == ts[..n];
    } else {
      assert ts[w := pc][..n] == ts[..n][w := pc];
      UncountedUpdate(ts[..n], w, pc);
    }
  }

  /** Whoever waits at the barrier or has passed it has found the first queue empty. */
  ghost predicate Drained<T>(s: State<T>) {
    forall w: nat :: w < |s.ts| && (s.ts[w].Wait? || Past(s.ts[w])) ==> s.part == []
  }

  ghost predicate Gated<T>(s: State<T>) {
    forall w: nat, v: nat :: w < |s.ts| && v < |s.ts| && Past(s.ts[w]) ==> s.ts[v].Wait? || Past(s.ts[v])
  }

  /** A writer that is done has found the second queue empty. */
  ghost predicate Emptied<T>(plan: Plan, s: State<T>) {
    forall w: nat :: w < |s.ts| && w < plan.writers && s.ts[w].Done? ==> s.mid == []
  }

  ghost predicate Phased<T>(plan: Plan, s: State<T>) { Drained(s) && Gated(s) && Emptied(plan, s) }

  // ----- join tasks -----

  /** How often `x` is among the join tasks of the first `p` clusters of a task. */
  ghost function Made<T>(plan: Plan, sub: T -> nat -> Task, t: T, p: nat, x: Task): nat {
    multiset(Created(sub(t), plan.pair, All, p))[x]
  }

  ghost function MadeAt<T>(plan: Plan, sub: T -> nat -> Task, pc: Pc<T>, x: Task): nat {
    if pc.Adding? then Made(plan, sub, pc.item.task, pc.p, x) else 0
  }

  ghost function MadeBy<T>(plan: Plan, sub: T -> nat -> Task, ts: seq<Pc<T>>, x: Task): nat {
    if ts == [] then 0 else MadeBy(plan, sub, ts[..|ts| - 1], x) + MadeAt(plan, sub, ts[|ts| - 1], x)
  }

  /** The join tasks of a task. */
  function JoinTasksOf<T>(plan: Plan, sub: T -> nat -> Task): T -> seq<Task> {
    (t: T) => Created(sub(t), plan.pair, All, plan.fan)
  }

  lemma {:induction false} MadeUpdate<T>(plan: Plan, sub: T -> nat -> Task, ts: seq<Pc<T>>, w: nat, pc: Pc<T>, x: Task)
    requires w < |ts|
    ensures MadeBy(plan, sub, ts[w := pc], x) + MadeAt(plan, sub, ts[w], x) == MadeBy(plan, sub, ts, x) + MadeAt(plan, sub, pc, x)
  {
    var n := |ts| - 1;
    if w == n {
      assert ts[w := pc][..n] == ts[..n];
    } else {
      assert ts[w := pc][..n] == ts[..n][w := pc];
      MadeUpdate(plan, sub, ts[..n], w, pc, x);
    }
  }

  lemma MadeOneMore<T>(plan: Plan, sub: T -> nat -> Task, t: T, p: nat, x: Task)
    ensures Made(plan, sub, t, p + 1, x) == Made(plan, sub, t, p, x) + (if Kept(plan.pair, All, sub(t)(p)) && sub(t)(p) == x then 1 else 0)
  {
    KeptCount(plan.pair, sub(t)(p), Created(sub(t), plan.pair, All, p), x);
  }

  lemma KeptCount(pair: bool, t: Task, q: seq<Task>, x: Task)
    ensures multiset(KeptOnly(pair, All, t, q))[x] == multiset(q)[x] + (if Kept(pair, All, t) && t == x then 1 else 0)
  {
    assert multiset([t] + q) == multiset{t} + multiset(q);
  }

  lemma MadeSnoc<T>(plan: Plan, sub: T -> nat -> Task, items: seq<Item<T>>, a: Item<T>, x: Task)
    ensures QueueCount(JoinTasksOf(plan, sub), TasksOf(items + [a]), x)
         == QueueCount(JoinTasksOf(plan, sub), TasksOf(items), x) + Made(plan, sub, a.task, plan.fan, x)
  {
    assert TasksOf(items + [a]) == TasksOf(items) + [a.task];
    assert (TasksOf(items) + [a.task])[..|items|] == TasksOf(items);
  }

  /** The join queue holds what has been made of the tasks so far. */
  ghost predicate Joined<T>(plan: Plan, sub: T -> nat -> Task, s: State<T>, x: Task) {
    multiset(s.join)[x] == QueueCount(JoinTasksOf(plan, sub), TasksOf(s.done), x) + MadeBy(plan, sub, s.ts, x)
  }

  /** And the threads' maxima are about its build sides. */
  ghost predicate Measured<T>(s: State<T>) {
    Largest(s.join) == MaxOf(s.maxes)
  }

  lemma AddKeepsJoined<T>(plan: Plan, sub: T -> nat -> Task, s: State<T>, s': State<T>, w: nat, x: Task)
    requires AddOne(plan, sub, s, s', w) && Joined(plan, sub, s, x)
    ensures Joined(plan, sub, s', x)
  {
    MadeUpdate(plan, sub, s.ts, w, s'.ts[w], x);
    MadeOneMore(plan, sub, s.ts[w].item.task, s.ts[w].p, x);
    KeptCount(plan.pair, sub(s.ts[w].item.task)(s.ts[w].p), s.join, x);
  }

  lemma EndKeepsJoined<T>(plan: Plan, sub: T -> nat -> Task, s: State<T>, s': State<T>, w: nat, x: Task)
    requires AddedAll(plan, s, s', w) && Joined(plan, sub, s, x)
    ensures Joined(plan, sub, s', x)
  {
    MadeUpdate(plan, sub, s.ts, w, s'.ts[w], x);
    MadeSnoc(plan, sub, s.done, s.ts[w].item, x);
  }

  lemma OthersKeepJoined<T>(plan: Plan, sub: T -> nat -> Task, s: State<T>, s': State<T>, w: nat, x: Task)
    requires w < |s.ts| && !s.ts[w].Adding? && s'.join == s.join && s'.done == s.done && Joined(plan, sub, s, x)
    requires |s'.ts| == |s.ts| && s'.ts == s.ts[w := s'.ts[w]] && (s'.ts[w].Adding? ==> s'.ts[w].p == 0)
    ensures Joined(plan, sub, s', x)
  {
    MadeUpdate(plan, sub, s.ts, w, s'.ts[w], x);
  }

  lemma OtherSteps<T>(plan: Plan, sub: T -> nat -> Task, s: State<T>, s': State<T>, w: nat)
    requires Step(plan, sub, s, s', w) && !s.ts[w].Adding?
    ensures s'.join == s.join && s'.done == s.done && s'.maxes == s.maxes
    ensures |s'.ts| == |s.ts| && s'.ts == s.ts[w := s'.ts[w]] && (s'.ts[w].Adding? ==> s'.ts[w].p == 0)
  {
  }

  lemma StepKeepsJoined<T>(plan: Plan, sub: T -> nat -> Task, s: State<T>, s': State<T>, w: nat, x: Task)
    requires Step(plan, sub, s, s', w) && Joined(plan, sub, s, x)
    ensures Joined(plan, sub, s', x)
  {
    if AddOne(plan, sub, s, s', w) {
      AddKeepsJoined(plan, sub, s, s', w, x);
    } else if AddedAll(plan, s, s', w) {
      EndKeepsJoined(plan, sub, s, s', w, x);
    } else {
      OtherSteps(plan, sub, s, s', w);
      OthersKeepJoined(plan, sub, s, s', w, x);
    }
  }

  lemma StepKeepsMeasured<T>(plan: Plan, sub: T -> nat -> Task, s: State<T>, s': State<T>, w: nat)
    requires Step(plan, sub, s, s', w) && Measured(s)
    ensures Measured(s')
  {
    if AddOne(plan, sub, s, s', w) {
      var t := sub(s.ts[w].item.task)(s.ts[w].p);
      MaxOfGrows(s.maxes, w, t.rNum);
      LargestCons(t, s.join);
    }
  }

  // ----- the invariant -----

  ghost predicate Sized<T>(plan: Plan, tasks: seq<T>, s: State<T>) {
    && |s.ts| == |s.maxes| == plan.threads
    && s.idx + Uncounted(s.ts) + |s.part| == |tasks|
    && forall w: nat :: w < |s.ts| && s.ts[w].Adding? ==> s.ts[w].p <= plan.fan
  }

  ghost predicate SliceOwned<T>(s: State<T>, i: nat) {
    Owners(s, i) == if i < s.idx then 1 else 0
  }

  ghost predicate Inv<T(!new)>(plan: Plan, sub: T -> nat -> Task, tasks: seq<T>, s: State<T>) {
    && Sized(plan, tasks, s) && Phased(plan, s) && Measured(s)
    && (forall x :: AllTasks(s, x) == multiset(tasks)[x])
    && (forall i: nat :: SliceOwned(s, i))
    && (forall x :: Joined(plan, sub, s, x))
  }

  /** What a step leaves alone: the other threads, and the queues that its thread is not at. */
  ghost predicate Moves<T>(s: State<T>, s': State<T>, w: nat) {
    w < |s.ts| == |s'.ts| && s'.ts == s.ts[w := s'.ts[w]]
  }

  /** What a thread and the queues have of a task. */
  ghost function LocalTasks<T>(s: State<T>, w: nat, x: T): nat
    requires w < |s.ts|
  {
    multiset(s.part)[x] + TaskCount(s.ts[w], x) + multiset(TasksOf(s.mid))[x] + multiset(TasksOf(s.done))[x]
  }

  ghost function LocalSlices<T>(s: State<T>, w: nat, i: nat): nat
    requires w < |s.ts|
  {
    SliceCount(s.ts[w], i) + multiset(Slices(s.mid))[i] + multiset(Slices(s.done))[i]
  }

  /** Who has a task changes, how often it is there does not. */
  ghost predicate TaskKept<T>(s: State<T>, s': State<T>, w: nat, x: T) {
    Moves(s, s', w) && LocalTasks(s', w, x) == LocalTasks(s, w, x)
  }

  /** A slice has an owner more only when it is handed out. */
  ghost predicate SliceKept<T>(s: State<T>, s': State<T>, w: nat, i: nat) {
    && Moves(s, s', w) && s.idx <= s'.idx <= s.idx + 1
    && LocalSlices(s', w, i) == LocalSlices(s, w, i) + (if s.idx <= i < s'.idx then 1 else 0)
  }

  lemma Get1Keeps<T>(s: State<T>, s': State<T>, w: nat, x: T)
    requires Get1(s, s', w)
    ensures TaskKept(s, s', w, x)
  {
    if s.part != [] {
      PartHead(s.part, x);
    }
  }

  lemma Finish1Keeps<T>(plan: Plan, s: State<T>, s': State<T>, w: nat, x: T)
    requires Finish1(plan, s, s', w)
    ensures TaskKept(s, s', w, x)
  {
    TasksCons(s.ts[w].item, s.mid, x);
  }

  lemma Get2Keeps<T>(s: State<T>, s': State<T>, w: nat, x: T)
    requires Get2(s, s', w)
    ensures TaskKept(s, s', w, x)
  {
    if s.mid != [] {
      assert s.mid == [s.mid[0]] + s.mid[1..];
      TasksCons(s.mid[0], s.mid[1..], x);
    }
  }

  lemma AddedAllKeeps<T>(plan: Plan, s: State<T>, s': State<T>, w: nat, x: T)
    requires AddedAll(plan, s, s', w)
    ensures TaskKept(s, s', w, x)
  {
    TasksSnoc(s.done, s.ts[w].item, x);
  }

  lemma OthersKeep<T>(plan: Plan, sub: T -> nat -> Task, s: State<T>, s': State<T>, w: nat, x: T)
    requires TakeSlice(s, s', w) || Pass(plan, s, s', w) || Finish2(s, s', w) || AddOne(plan, sub, s, s', w)
    ensures TaskKept(s, s', w, x)
  {
  }

  lemma StepKeepsTask<T>(plan: Plan, sub: T -> nat -> Task, s: State<T>, s': State<T>, w: nat, x: T)
    requires Step(plan, sub, s, s', w)
    ensures AllTasks(s', x) == AllTasks(s, x)
  {
    if Get1(s, s', w) {
      Get1Keeps(s, s', w, x);
    } else if Finish1(plan, s, s', w) {
      Finish1Keeps(plan, s, s', w, x);
    } else if Get2(s, s', w) {
      Get2Keeps(s, s', w, x);
    } else if AddedAll(plan, s, s', w) {
      AddedAllKeeps(plan, s, s', w, x);
    } else {
      OthersKeep(plan, sub, s, s', w, x);
    }
    HeldUpdate(s.ts, w, s'.ts[w], x);
  }

  lemma Finish1KeepsSlice<T>(plan: Plan, s: State<T>, s': State<T>, w: nat, i: nat)
    requires Finish1(plan, s, s', w)
    ensures SliceKept(s, s', w, i)
  {
    SlicesCons(s.ts[w].item, s.mid, i);
  }

  lemma Get2KeepsSlice<T>(s: State<T>, s': State<T>, w: nat, i: nat)
    requires Get2(s, s', w)
    ensures SliceKept(s, s', w, i)
  {
    if s.mid != [] {
      assert s.mid == [s.mid[0]] + s.mid[1..];
      SlicesCons(s.mid[0], s.mid[1..], i);
    }
  }

  lemma AddedAllKeepsSlice<T>(plan: Plan, s: State<T>, s': State<T>, w: nat, i: nat)
    requires AddedAll(plan, s, s', w)
    ensures SliceKept(s, s', w, i)
  {
    SlicesSnoc(s.done, s.ts[w].item, i);
  }

  lemma OthersKeepSlice<T>(plan: Plan, sub: T -> nat -> Task, s: State<T>, s': State<T>, w: nat, i: nat)
    requires Get1(s, s', w) || TakeSlice(s, s', w) || Pass(plan, s, s', w) || Finish2(s, s', w) || AddOne(plan, sub, s, s', w)
    ensures SliceKept(s, s', w, i)
  {
  }

  lemma StepKeepsSlice<T>(plan: Plan, sub: T -> nat -> Task, s: State<T>, s': State<T>, w: nat, i: nat)
    requires Step(plan, sub, s, s', w) && SliceOwned(s, i)
    ensures SliceOwned(s', i)
  {
    if Finish1(plan, s, s', w) {
      Finish1KeepsSlice(plan, s, s', w, i);
    } else if Get2(s, s', w) {
      Get2KeepsSlice(s, s', w, i);
    } else if AddedAll(plan, s, s', w) {
      AddedAllKeepsSlice(plan, s, s', w, i);
    } else {
      OthersKeepSlice(plan, sub, s, s', w, i);
    }
    SlicesUpdate(s.ts, w, s'.ts[w], i);
  }

  lemma StepKeepsSized<T>(plan: Plan, sub: T -> nat -> Task, tasks: seq<T>, s: State<T>, s': State<T>, w: nat)
    requires Step(plan, sub, s, s', w) && Sized(plan, tasks, s)
    ensures Sized(plan, tasks, s')
  {
    UncountedUpdate(s.ts, w, s'.ts[w]);
  }

  /** Nobody is past the barrier while this thread is before it. */
  lemma StepKeepsGated<T>(plan: Plan, sub: T -> nat -> Task, s: State<T>, s': State<T>, w: nat)
    requires Step(plan, sub, s, s', w) && Gated(s)
    ensures Gated(s')
  {
  }

  lemma StepKeepsDrained<T>(plan: Plan, sub: T -> nat -> Task, s: State<T>, s': State<T>, w: nat)
    requires Step(plan, sub, s, s', w) && Drained(s)
    ensures Drained(s')
  {
  }

  lemma StepKeepsEmptied<T>(plan: Plan, sub: T -> nat -> Task, s: State<T>, s': State<T>, w: nat)
    requires Step(plan, sub, s, s', w) && Gated(s) && Emptied(plan, s)
    ensures Emptied(plan, s')
  {
  }

  lemma StepKeepsPhased<T>(plan: Plan, sub: T -> nat -> Task, s: State<T>, s': State<T>, w: nat)
    requires Step(plan, sub, s, s', w) && Phased(plan, s)
    ensures Phased(plan, s')
  {
    StepKeepsGated(plan, sub, s, s', w);
    StepKeepsDrained(plan, sub, s, s', w);
    StepKeepsEmptied(plan, sub, s, s', w);
  }

  lemma StepKeepsInv<T(!new)>(plan: Plan, sub: T -> nat -> Task, tasks: seq<T>, s: State<T>, s': State<T>, w: nat)
    requires Inv(plan, sub, tasks, s) && Step(plan, sub, s, s', w)
    ensures Inv(plan, sub, tasks, s')
  {
    forall x
      ensures AllTasks(s', x) == multiset(tasks)[x]
    {
      StepKeepsTask(plan, sub, s, s', w, x);
    }
    forall i: nat
      ensures SliceOwned(s', i)
    {
      StepKeepsSlice(plan, sub, s, s', w, i);
    }
    forall x
      ensures Joined(plan, sub, s', x)
    {
      StepKeepsJoined(plan, sub, s, s', w, x);
    }
    StepKeepsSized(plan, sub, tasks, s, s', w);
    StepKeepsPhased(plan, sub, s, s', w);
    StepKeepsMeasured(plan, sub, s, s', w);
  }

  /** Threads that have nothing in their hands. */
  ghost predicate Idle<T>(ts: seq<Pc<T>>) {
    forall w: nat :: w < |ts| ==> ts[w].Fetch1? || ts[w].Done?
  }

  lemma {:induction false} NothingHeld<T>(ts: seq<Pc<T>>, x: T, i: nat)
    requires Idle(ts)
    ensures Held(ts, x) == 0
  {
    if ts != [] {
      NothingHeld(ts[..|ts| - 1], x, i);
    }
  }

  lemma {:induction false} NoSlices<T>(ts: seq<Pc<T>>, i: nat)
    requires Idle(ts)
    ensures HeldSlices(ts, i) == 0 && Uncounted(ts) == 0
  {
    if ts != [] {
      NoSlices(ts[..|ts| - 1], i);
    }
  }

  lemma {:induction false} NothingMade<T>(plan: Plan, sub: T -> nat -> Task, ts: seq<Pc<T>>, x: Task)
    requires Idle(ts)
    ensures MadeBy(plan, sub, ts, x) == 0
  {
    if ts != [] {
      NothingMade(plan, sub, ts[..|ts| - 1], x);
    }
  }

  lemma {:induction false} NoMaximum(a: seq<nat>)
    requires forall i: nat :: i < |a| ==> a[i] == 0
    ensures MaxOf(a) == 0
  {
    if a != [] {
      NoMaximum(a[..|a| - 1]);
    }
  }

  lemma InitHasInv<T(!new)>(plan: Plan, sub: T -> nat -> Task, tasks: seq<T>, s: State<T>)
    requires Init(plan, tasks, s)
    ensures Inv(plan, sub, tasks, s)
  {
    NoSlices(s.ts, 0);
    NoMaximum(s.maxes);
    forall x
      ensures Joined(plan, sub, s, x)
    {
      NothingMade(plan, sub, s.ts, x);
    }
    forall x
      ensures AllTasks(s, x) == multiset(tasks)[x]
    {
      NothingHeld(s.ts, x, 0);
    }
    forall i: nat
      ensures SliceOwned(s, i)
    {
      NoSlices(s.ts, i);
    }
  }

  ghost predicate Run<T(!new)>(plan: Plan, sub: T -> nat -> Task, tasks: seq<T>, tr: seq<State<T>>) {
    IsRun(tr, (s: State<T>) => Init(plan, tasks, s), (s: State<T>, s': State<T>) => Next(plan, sub, s, s'))
  }

  lemma RunHasInv<T(!new)>(plan: Plan, sub: T -> nat -> Task, tasks: seq<T>, tr: seq<State<T>>, i: nat)
    requires Run(plan, sub, tasks, tr) && i < |tr|
    ensures Inv(plan, sub, tasks, tr[i])
  {
    forall s | Init(plan, tasks, s)
      ensures Inv(plan, sub, tasks, s)
    {
      InitHasInv(plan, sub, tasks, s);
    }
    forall s, s' | Inv(plan, sub, tasks, s) && Next(plan, sub, s, s')
      ensures Inv(plan, sub, tasks, s')
    {
      var w: nat :| Step(plan, sub, s, s', w);
      StepKeepsInv(plan, sub, tasks, s, s', w);
    }
    Invariant(tr, (s: State<T>) => Init(plan, tasks, s), (s: State<T>, s': State<T>) => Next(plan, sub, s, s'),
              (s: State<T>) => Inv(plan, sub, tasks, s), i);
  }

  /** At any time, a histogram slice belongs to exactly one task once it is handed out, and slices do
      not outnumber the tasks that memory was set aside for. */
  lemma SlicesArePrivate<T(!new)>(plan: Plan, sub: T -> nat -> Task, tasks: seq<T>, tr: seq<State<T>>, k: nat, i: nat)
    requires Run(plan, sub, tasks, tr) && k < |tr|
    ensures Owners(tr[k], i) == if i < tr[k].idx then 1 else 0
    ensures tr[k].idx <= |tasks|
  {
    RunHasInv(plan, sub, tasks, tr, k);
    assert SliceOwned(tr[k], i);
  }

  ghost predicate AllDone<T>(s: State<T>) {
    forall w: nat :: w < |s.ts| ==> s.ts[w].Done?
  }

  // ----- the end -----

  /** With at least one writer, every task is partitioned exactly once, by a writer or after passing
      through the second queue, and the join queue holds exactly the join tasks of all tasks: one for
      every cluster that is to have one.  The threads' maxima give the largest build side among them. */
  lemma EveryTaskOnce<T(!new)>(plan: Plan, sub: T -> nat -> Task, tasks: seq<T>, tr: seq<State<T>>)
    requires Run(plan, sub, tasks, tr) && 0 < plan.writers && 0 < plan.threads
    requires AllDone(tr[|tr| - 1])
    ensures multiset(TasksOf(tr[|tr| - 1].done)) == multiset(tasks)
    ensures multiset(tr[|tr| - 1].join) == multiset(QueueOf(JoinTasksOf(plan, sub), tasks))
    ensures MaxOf(tr[|tr| - 1].maxes) == Largest(tr[|tr| - 1].join)
    ensures tr[|tr| - 1].part == [] && tr[|tr| - 1].mid == []
  {
    var s := tr[|tr| - 1];
    RunHasInv(plan, sub, tasks, tr, |tr| - 1);
    AllDoneMeansAll(plan, sub, tasks, s);
    forall x
      ensures multiset(s.join)[x] == multiset(QueueOf(JoinTasksOf(plan, sub), tasks))[x]
    {
      QueueOfPermutation(JoinTasksOf(plan, sub), TasksOf(s.done), tasks, x);
      assert Joined(plan, sub, s, x);
      NothingMade(plan, sub, s.ts, x);
    }
  }

  lemma AllDoneMeansAll<T(!new)>(plan: Plan, sub: T -> nat -> Task, tasks: seq<T>, s: State<T>)
    requires Inv(plan, sub, tasks, s) && AllDone(s) && 0 < plan.writers && 0 < plan.threads
    ensures multiset(TasksOf(s.done)) == multiset(tasks) && s.part == [] && s.mid == []
  {
    assert s.ts[0].Done?;
    forall x
      ensures multiset(TasksOf(s.done))[x] == multiset(tasks)[x]
    {
      NothingHeld(s.ts, x, 0);
      assert AllTasks(s, x) == multiset(tasks)[x];
    }
  }

  /** Until all threads are done, one of them can take a step. */
  lemma NeverStuck<T(!new)>(plan: Plan, sub: T -> nat -> Task, tasks: seq<T>, s: State<T>)
    requires Inv(plan, sub, tasks, s) && !AllDone(s)
    ensures exists s' :: Next(plan, sub, s, s')
  {
    var w: nat :| w < |s.ts| && !s.ts[w].Done?;
    if s.ts[w].Wait? && exists v: nat :: v < |s.ts| && !s.ts[v].Wait? && !Past(s.ts[v]) {
      var v: nat :| v < |s.ts| && !s.ts[v].Wait? && !Past(s.ts[v]);
      ThreadGoesOn(plan, sub, tasks, s, v);
      var s' :| Step(plan, sub, s, s', v);
      assert Next(plan, sub, s, s');
    } else {
      ThreadGoesOn(plan, sub, tasks, s, w);
      var s' :| Step(plan, sub, s, s', w);
      assert Next(plan, sub, s, s');
    }
  }

  lemma ThreadGoesOn<T(!new)>(plan: Plan, sub: T -> nat -> Task, tasks: seq<T>, s: State<T>, w: nat)
    requires Inv(plan, sub, tasks, s) && w < |s.ts| && !s.ts[w].Done?
    requires s.ts[w].Wait? ==> forall v: nat :: v < |s.ts| ==> s.ts[v].Wait? || Past(s.ts[v])
    ensures exists s' :: Step(plan, sub, s, s', w)
  {
    match s.ts[w] {
      case Fetch1 =>
        assert Step(plan, sub, s, if s.part != [] then s.(part := s.part[1..], ts := s.ts[w := Got1(s.part[0])]) else s.(ts := s.ts[w := Wait]), w);
      case Got1(t) => assert Step(plan, sub, s, s.(idx := s.idx + 1, ts := s.ts[w := Counted(Item(t, s.idx))]), w);
      case Counted(item) =>
        assert Step(plan, sub, s, if w < plan.writers then s.(ts := s.ts[w := Adding(item, 0, true)])
                                  else s.(mid := [item] + s.mid, ts := s.ts[w := Fetch1]), w);
      case Wait => assert Step(plan, sub, s, s.(ts := s.ts[w := if w < plan.writers then Fetch2 else Done]), w);
      case Fetch2 =>
        assert Step(plan, sub, s, if s.mid != [] then s.(mid := s.mid[1..], ts := s.ts[w := Got2(s.mid[0])]) else s.(ts := s.ts[w := Done]), w);
      case Got2(item) => assert Step(plan, sub, s, s.(ts := s.ts[w := Adding(item, 0, false)]), w);
      case Adding(item, p, first) =>
        if p < plan.fan {
          var t := sub(item.task)(p);
          assert Step(plan, sub, s, s.(join := KeptOnly(plan.pair, All, t, s.join),
            maxes := if Kept(plan.pair, All, t) then s.maxes[w := Larger(s.maxes[w], t.rNum)] else s.maxes,
            ts := s.ts[w := Adding(item, p + 1, first)]), w);
        } else {
          assert Step(plan, sub, s, s.(done := s.done + [item], ts := s.ts[w := if first then Fetch1 else Fetch2]), w);
        }
    }
  }

  /** Without a writer nothing is partitioned at all, and nothing will be joined. */
  lemma {:induction false} NoWriterNoWork<T(!new)>(plan: Plan, sub: T -> nat -> Task, tasks: seq<T>, tr: seq<State<T>>, i: nat)
    requires Run(plan, sub, tasks, tr) && plan.writers == 0 && i < |tr|
    ensures tr[i].done == [] && tr[i].join == [] && |tr[i].ts| == plan.threads
    ensures forall w: nat :: w < plan.threads ==> !tr[i].ts[w].Fetch2? && !tr[i].ts[w].Got2? && !tr[i].ts[w].Adding?
  {
    if i > 0 {
      NoWriterNoWork(plan, sub, tasks, tr, i - 1);
      StepOf(tr, (s: State<T>) => Init(plan, tasks, s), (s: State<T>, s': State<T>) => Next(plan, sub, s, s'), i);
    }
  }

  // ----- who writes -----

  /** A thread without permission to write. */
  ghost predicate HandsOn<T>(s: State<T>, w: nat) {
    w < |s.ts| == |s.maxes| && !s.ts[w].Fetch2? && !s.ts[w].Got2? && !s.ts[w].Adding? && s.maxes[w] == 0
  }

  lemma StepKeepsHandsOn<T>(plan: Plan, sub: T -> nat -> Task, s: State<T>, s': State<T>, v: nat, w: nat)
    requires Step(plan, sub, s, s', v) && HandsOn(s, w) && plan.writers <= w
    ensures HandsOn(s', w)
  {
  }

  /** A thread without permission to write never fetches from the second queue, never partitions and
      never adds a join task; and it has no build side to report. */
  lemma {:induction false} OnlyWritersPartition<T(!new)>(plan: Plan, sub: T -> nat -> Task, tasks: seq<T>, tr: seq<State<T>>, i: nat, w: nat)
    requires Run(plan, sub, tasks, tr) && i < |tr| && plan.writers <= w < plan.threads
    ensures |tr[i].ts| == |tr[i].maxes| == plan.threads
    ensures !tr[i].ts[w].Fetch2? && !tr[i].ts[w].Got2? && !tr[i].ts[w].Adding? && tr[i].maxes[w] == 0
  {
    RunHasInv(plan, sub, tasks, tr, i);
    if i > 0 {
      OnlyWritersPartition(plan, sub, tasks, tr, i - 1, w);
      StepOf(tr, (s: State<T>) => Init(plan, tasks, s), (s: State<T>, s': State<T>) => Next(plan, sub, s, s'), i);
      var v: nat :| Step(plan, sub, tr[i - 1], tr[i], v);
      StepKeepsHandsOn(plan, sub, tr[i - 1], tr[i], v, w);
    }
  }

  lemma WhatAStepDoes<T>(plan: Plan, sub: T -> nat -> Task, s: State<T>, s': State<T>, w: nat)
    requires Step(plan, sub, s, s', w)
    ensures w < |s.ts|
    ensures s'.join != s.join || s'.done != s.done ==> s.ts[w].Adding?
    ensures |s'.mid| > |s.mid| ==> s.ts[w].Counted? && !s'.ts[w].Adding?
    ensures |s'.mid| < |s.mid| ==> s.ts[w].Fetch2?
    ensures |s'.maxes| == |s.maxes| && forall v: nat :: v < |s.maxes| && v != w ==> s'.maxes[v] == s.maxes[v]
  {
  }

  /** Join tasks are added, and tasks finished, by writers alone; the second queue takes tasks from the
      other threads only, and gives them to writers only; and no thread touches the maximum of another. */
  lemma OnlyWritersAdd<T(!new)>(plan: Plan, sub: T -> nat -> Task, tasks: seq<T>, tr: seq<State<T>>, i: nat, w: nat)
    requires Run(plan, sub, tasks, tr) && i + 1 < |tr| && Step(plan, sub, tr[i], tr[i + 1], w)
    ensures tr[i + 1].join != tr[i].join || tr[i + 1].done != tr[i].done ==> w < plan.writers
    ensures |tr[i + 1].mid| < |tr[i].mid| ==> w < plan.writers
    ensures |tr[i + 1].mid| > |tr[i].mid| ==> plan.writers <= w
    ensures |tr[i + 1].maxes| == |tr[i].maxes|
    ensures forall v: nat :: v < |tr[i].maxes| && v != w ==> tr[i + 1].maxes[v] == tr[i].maxes[v]
  {
    WhatAStepDoes(plan, sub, tr[i], tr[i + 1], w);
    RunHasInv(plan, sub, tasks, tr, i);
    if plan.writers <= w {
      OnlyWritersPartition(plan, sub, tasks, tr, i, w);
    }
  }

  // ----- every run ends -----

  /** What a thread still does, at most, to what is in its hands, and until it is done. */
  function ThreadLeft<T>(fan: nat, pc: Pc<T>): nat {
    match pc
    case Done => 0
    case Fetch2 => 1
    case Wait => 2
    case Fetch1 => 3
    case Adding(_, p, first) => (if p < fan then fan - p else 0) + (if first then 4 else 2)
    case Got2(_) => fan + 3
    case Counted(_) => fan + 7
    case Got1(_) => fan + 8
  }

  function ThreadsLeft<T>(fan: nat, ts: seq<Pc<T>>): nat -> nat {
    (w: nat) => if w < |ts| then ThreadLeft(fan, ts[w]) else 0
  }

  function TotalLeft<T>(plan: Plan, s: State<T>): nat {
    Times(|s.part|, plan.fan + 6) + Times(|s.mid|, plan.fan + 3) + SumTo(ThreadsLeft(plan.fan, s.ts), |s.ts|)
  }

  /** The sum over the threads, when one of them moves. */
  lemma ThreadUsesUp<T>(fan: nat, ts: seq<Pc<T>>, w: nat, pc: Pc<T>)
    requires w < |ts|
    ensures SumTo(ThreadsLeft(fan, ts[w := pc]), |ts|) + ThreadLeft(fan, ts[w]) == SumTo(ThreadsLeft(fan, ts), |ts|) + ThreadLeft(fan, pc)
  {
    var f, g := ThreadsLeft(fan, ts), ThreadsLeft(fan, ts[w := pc]);
    var rest := ThreadsLeft(fan, ts[w := Done]);
    SumToOneMore(f, rest, w, ThreadLeft(fan, ts[w]), |ts|);
    SumToOneMore(g, rest, w, ThreadLeft(fan, pc), |ts|);
  }

  lemma QueuesGive<T>(plan: Plan, sub: T -> nat -> Task, s: State<T>, s': State<T>, w: nat)
    requires Step(plan, sub, s, s', w)
    ensures Moves(s, s', w)
    ensures Times(|s'.part|, plan.fan + 6) + Times(|s'.mid|, plan.fan + 3) + ThreadLeft(plan.fan, s'.ts[w])
          < Times(|s.part|, plan.fan + 6) + Times(|s.mid|, plan.fan + 3) + ThreadLeft(plan.fan, s.ts[w])
  {
  }

  lemma StepUsesOneUp<T>(plan: Plan, sub: T -> nat -> Task, s: State<T>, s': State<T>, w: nat)
    requires Step(plan, sub, s, s', w)
    ensures TotalLeft(plan, s') < TotalLeft(plan, s)
  {
    QueuesGive(plan, sub, s, s', w);
    ThreadUsesUp(plan.fan, s.ts, w, s'.ts[w]);
  }

  function Budget(plan: Plan, tasks: nat): nat { Times(tasks, plan.fan + 6) + Times(plan.threads, 3) }

  lemma StartWithinBudget<T>(plan: Plan, tasks: seq<T>, s: State<T>)
    requires Init(plan, tasks, s)
    ensures TotalLeft(plan, s) <= Budget(plan, |tasks|)
  {
    SumToAtMost(ThreadsLeft(plan.fan, s.ts), 3, plan.threads);
  }

  /** No run is longer than the tasks, their clusters and the threads allow. */
  lemma RunsEnd<T(!new)>(plan: Plan, sub: T -> nat -> Task, tasks: seq<T>, tr: seq<State<T>>)
    requires Run(plan, sub, tasks, tr)
    ensures |tr| - 1 <= Budget(plan, |tasks|)
  {
    forall s, s' | Next(plan, sub, s, s')
      ensures TotalLeft(plan, s') < TotalLeft(plan, s)
    {
      var w: nat :| Step(plan, sub, s, s', w);
      StepUsesOneUp(plan, sub, s, s', w);
    }
    Bounded(tr, (s: State<T>) => Init(plan, tasks, s), (s: State<T>, s': State<T>) => Next(plan, sub, s, s'), (s: State<T>) => true,
            (s: State<T>) => TotalLeft(plan, s), |tr| - 1);
    StartWithinBudget(plan, tasks, tr[0]);
  }
}
