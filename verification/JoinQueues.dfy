/** The join tasks of a two-pass join, in the symmetric form, where both relations are partitioned
    twice, and in the asymmetric one, where the probe side is partitioned once; and what they stand for
    together: the join of the two relations. */
module JoinQueues {
  import opened Bits
  import opened Relations
  import opened Offsets
  import opened Partitioning
  import opened Accumulators
  import opened Tasks
  import opened TaskCreation

  /** The relations, the radixes of both passes, the block size, whether the probe side is partitioned
      twice as well, skew handling with its two limits, and the threads that build and that probe. */
  datatype Join = Join(R: seq<Tuple>, S: seq<Tuple>, r1: Radix, r2: Radix, t: nat, pair: bool,
                       skew: bool, limit0: nat, limit1: nat, builders: nat, probers: nat)

  /** First-pass clusters are padded by one block per second-pass cluster. */
  function Pad(r2: Radix, t: nat): nat { Times(r2.fanout, t) }

  function FirstLayout(rel: seq<Tuple>, r2: Radix, t: nat): Layout { Layout(rel, 0, Pad(r2, t)) }

  function SubLayout(rel: seq<Tuple>, r1: Radix, r2: Radix, t: nat, p: nat): Layout {
    Layout(Sel(rel, r1, p), ClusterBase(rel, r1, 0, Pad(r2, t), p), t)
  }

  /** The second-pass task of a first-pass cluster. */
  function FirstTask(x: Join, p: nat): Task {
    ClusterTask(Pair(FirstLayout(x.R, x.r2, x.t), FirstLayout(x.S, x.r2, x.t)), x.r1, p)
  }

  /** What its join tasks are made of. */
  function SubSource(x: Join, p: nat): Source {
    if x.pair then Pair(SubLayout(x.R, x.r1, x.r2, x.t, p), SubLayout(x.S, x.r1, x.r2, x.t, p))
    else Whole(SubLayout(x.R, x.r1, x.r2, x.t, p), FirstTask(x, p))
  }

  function SubTasks(x: Join, p: nat): nat -> Task { Clusters(SubSource(x, p), x.r2) }

  /** The join tasks of a task that one thread partitions: one for each cluster that is to have one. */
  function Plain(x: Join): nat -> seq<Task> {
    (p: nat) => Created(SubTasks(x, p), x.pair, All, x.r2.fanout)
  }

  /** The join tasks of a task that all threads partition: the small ones whole, the big ones in pieces. */
  function Skewed(x: Join): nat -> seq<Task>
    requires 0 < x.probers
  {
    (p: nat) => Created(SubTasks(x, p), x.pair, Small(x.limit1), x.r2.fanout)
              + Split(SubTasks(x, p), x.pair, x.limit1, x.probers, x.r2.fanout)
  }

  /** The whole join queue: `ps` are the tasks for one thread, `bs` those for all threads. */
  function JoinQueue(x: Join, ps: seq<nat>, bs: seq<nat>): seq<Task>
    requires 0 < x.probers
  {
    QueueOf(Plain(x), ps) + QueueOf(Skewed(x), bs)
  }

  /** With skew handling, first-level tasks are big by either side, also in the asymmetric form. */
  predicate IsSkewed(x: Join, p: nat) {
    x.skew && IsBig(true, FirstTask(x, p), x.limit0)
  }

  ghost predicate Dispatched(x: Join, ps: seq<nat>, bs: seq<nat>, p: nat) {
    && (p in ps <==> p < x.r1.fanout && Kept(true, All, FirstTask(x, p)) && !IsSkewed(x, p))
    && (p in bs <==> p < x.r1.fanout && Kept(true, All, FirstTask(x, p)) && IsSkewed(x, p))
  }

  ghost predicate Distinct(ps: seq<nat>) {
    forall k: nat, k': nat :: k < k' < |ps| ==> ps[k] != ps[k']
  }

  /** The first-level tasks: every pair with tuples on both sides once, in the queue that its sizes call
      for, in whatever order. */
  ghost predicate FirstLevel(x: Join, ps: seq<nat>, bs: seq<nat>) {
    Distinct(ps) && Distinct(bs) && forall p: nat {:trigger Dispatched(x, ps, bs, p)} :: Dispatched(x, ps, bs, p)
  }

  // ----- sums over lists of clusters -----

  function ListSum(g: nat -> nat, ps: seq<nat>): nat {
    if ps == [] then 0 else ListSum(g, ps[..|ps| - 1]) + g(ps[|ps| - 1])
  }

  lemma {:induction false} ListSumConcat(g: nat -> nat, a: seq<nat>, b: seq<nat>)
    ensures ListSum(g, a + b) == ListSum(g, a) + ListSum(g, b)
  {
    if b == [] {
      assert a + b == a;
    } else {
      assert (a + b)[..|a + b| - 1] == a + b[..|b| - 1];
      ListSumConcat(g, a, b[..|b| - 1]);
    }
  }

  lemma ListSumOne(g: nat -> nat, p: nat)
    ensures ListSum(g, [p]) == g(p)
  {
    assert [p][..0] == [];
  }

  /** A list without repetitions that has every cluster with a share in it: the sum over all clusters. */
  lemma {:induction false} ListIsAll(g: nat -> nat, ps: seq<nat>, n: nat)
    requires Distinct(ps) && (forall k: nat :: k < |ps| ==> ps[k] < n)
    requires forall p: nat :: p < n && p !in ps ==> g(p) == 0
    ensures ListSum(g, ps) == SumTo(g, n)
    decreases n
  {
    if n == 0 {
      assert ps == [];
    } else if n - 1 in ps {
      var rest := WithoutLast(g, ps, n);
      ListIsAll(g, rest, n - 1);
    } else {
      forall k: nat | k < |ps|
        ensures ps[k] < n - 1
      {
        assert ps[k] in ps;
      }
      ListIsAll(g, ps, n - 1);
    }
  }

  lemma WithoutLast(g: nat -> nat, ps: seq<nat>, n: nat) returns (rest: seq<nat>)
    requires Distinct(ps) && (forall k: nat :: k < |ps| ==> ps[k] < n) && 0 < n && n - 1 in ps
    ensures Distinct(rest) && (forall k: nat :: k < |rest| ==> rest[k] < n - 1)
    ensures forall p: nat :: p < n - 1 && p in ps ==> p in rest
    ensures ListSum(g, ps) == ListSum(g, rest) + g(n - 1)
  {
    var k: nat :| k < |ps| && ps[k] == n - 1;
    rest := ps[..k] + ps[k + 1..];
    RestIsDistinct(ps, k, n);
    SumAround(g, ps, k);
  }

  lemma RestIsDistinct(ps: seq<nat>, k: nat, n: nat)
    requires Distinct(ps) && (forall i: nat :: i < |ps| ==> ps[i] < n) && k < |ps| && ps[k] == n - 1
    ensures var rest := ps[..k] + ps[k + 1..];
      Distinct(rest) && (forall i: nat :: i < |rest| ==> rest[i] < n - 1) && forall p: nat :: p in ps && p != n - 1 ==> p in rest
  {
    var rest := ps[..k] + ps[k + 1..];
    forall i: nat | i < |rest|
      ensures rest[i] == ps[if i < k then i else i + 1] && rest[i] < n - 1
    {
    }
    forall p: nat | p in ps && p != n - 1
      ensures p in rest
    {
      var i: nat :| i < |ps| && ps[i] == p;
      assert rest[if i < k then i else i - 1] == p;
    }
  }

  lemma SumAround(g: nat -> nat, ps: seq<nat>, k: nat)
    requires k < |ps|
    ensures ListSum(g, ps) == ListSum(g, ps[..k] + ps[k + 1..]) + g(ps[k])
  {
    SplitAt(ps, k);
    SumOfThree(g, ps[..k], ps[k], ps[k + 1..]);
  }

  lemma SplitAt(ps: seq<nat>, k: nat)
    requires k < |ps|
    ensures ps == ps[..k] + ([ps[k]] + ps[k + 1..])
  {
  }

  lemma SumOfThree(g: nat -> nat, a: seq<nat>, p: nat, b: seq<nat>)
    ensures ListSum(g, a + ([p] + b)) == ListSum(g, a + b) + g(p)
  {
    ListSumConcat(g, a, [p] + b);
    ListSumConcat(g, [p], b);
    ListSumConcat(g, a, b);
    ListSumOne(g, p);
  }

  ghost predicate Stands(v: Task -> nat, f: nat -> seq<Task>, g: nat -> nat, p: nat) {
    QueueSum(v, f(p)) == g(p)
  }

  lemma {:induction false} QueueOfValue(v: Task -> nat, f: nat -> seq<Task>, g: nat -> nat, ps: seq<nat>)
    requires forall p: nat {:trigger Stands(v, f, g, p)} :: p in ps ==> Stands(v, f, g, p)
    ensures QueueSum(v, QueueOf(f, ps)) == ListSum(g, ps)
  {
    if ps != [] {
      var n := |ps| - 1;
      forall p: nat | p in ps[..n]
        ensures Stands(v, f, g, p)
      {
        assert p in ps;
      }
      QueueOfValue(v, f, g, ps[..n]);
      assert Stands(v, f, g, ps[n]);
      QueueConcat(v, QueueOf(f, ps[..n]), f(ps[n]));
    }
  }

  // ----- the tasks of one first-pass cluster -----

  /** First-pass cluster `p` is partitioned again, in place. */
  ghost predicate SubPlaced(mem: seq<Tuple>, rel: seq<Tuple>, r1: Radix, r2: Radix, t: nat, p: nat) {
    Placed(mem, SubLayout(rel, r1, r2, t, p), r2)
  }

  /** After the passes, the source of the join tasks is in place: both sides partitioned again, or the
      probe side as the first pass left it. */
  ghost predicate InPlace(x: Join, Rm: seq<Tuple>, Sm: seq<Tuple>, p: nat) {
    && SubPlaced(Rm, x.R, x.r1, x.r2, x.t, p)
    && if x.pair then SubPlaced(Sm, x.S, x.r1, x.r2, x.t, p)
       else HoldsAt(Sm, At(FirstLayout(x.S, x.r2, x.t), x.r1, p), Sel(x.S, x.r1, p))
  }

  lemma SourceIsReady(x: Join, Rm: seq<Tuple>, Sm: seq<Tuple>, p: nat)
    requires InPlace(x, Rm, Sm, p)
    ensures Ready(SubSource(x, p), x.r2, Rm, Sm)
    ensures SubSource(x, p).rl.rel == Sel(x.R, x.r1, p) && ProbeSide(SubSource(x, p), Sm) == Sel(x.S, x.r1, p)
  {
  }

  lemma PlainValue(x: Join, w: Measure, Rm: seq<Tuple>, Sm: seq<Tuple>, p: nat)
    requires 0 < x.probers && InPlace(x, Rm, Sm, p)
    ensures Stands(JoinOf(w, Rm, Sm), Plain(x), ClusterJoin(w, x.R, x.S, x.r1), p)
  {
    SourceIsReady(x, Rm, Sm, p);
    TasksKeepTheJoin(w, SubSource(x, p), x.r2, Rm, Sm);
  }

  lemma SkewedValue(x: Join, w: Measure, Rm: seq<Tuple>, Sm: seq<Tuple>, p: nat)
    requires 0 < x.probers && InPlace(x, Rm, Sm, p)
    ensures Stands(JoinOf(w, Rm, Sm), Skewed(x), ClusterJoin(w, x.R, x.S, x.r1), p)
  {
    SourceIsReady(x, Rm, Sm, p);
    SkewKeepsTheJoin(w, SubSource(x, p), x.r2, x.limit1, x.probers, Rm, Sm);
    QueueConcat(JoinOf(w, Rm, Sm), Created(SubTasks(x, p), x.pair, Small(x.limit1), x.r2.fanout),
                Split(SubTasks(x, p), x.pair, x.limit1, x.probers, x.r2.fanout));
  }

  // ----- all of them -----

  lemma FirstLevelLists(x: Join, ps: seq<nat>, bs: seq<nat>)
    requires FirstLevel(x, ps, bs)
    ensures Distinct(ps + bs) && (forall k: nat :: k < |ps + bs| ==> (ps + bs)[k] < x.r1.fanout)
    ensures forall p: nat :: p < x.r1.fanout && p !in ps + bs ==> !Kept(true, All, FirstTask(x, p))
  {
    forall k: nat | k < |ps + bs|
      ensures (ps + bs)[k] < x.r1.fanout
    {
      assert Dispatched(x, ps, bs, (ps + bs)[k]) && (ps + bs)[k] in ps + bs;
    }
    forall k: nat, k': nat | k < k' < |ps + bs|
      ensures (ps + bs)[k] != (ps + bs)[k']
    {
      if k < |ps| <= k' {
        assert Dispatched(x, ps, bs, ps[k]) && ps[k] in ps && bs[k' - |ps|] in bs;
      }
    }
    forall p: nat | p < x.r1.fanout && p !in ps + bs
      ensures !Kept(true, All, FirstTask(x, p))
    {
      assert Dispatched(x, ps, bs, p) && p !in ps && p !in bs;
    }
  }

  ghost predicate AllInPlace(x: Join, Rm: seq<Tuple>, Sm: seq<Tuple>, ps: seq<nat>) {
    forall p: nat {:trigger InPlace(x, Rm, Sm, p)} :: p in ps ==> InPlace(x, Rm, Sm, p)
  }

  /** The join queue stands for the join of the two relations: every pair of tuples with equal keys is
      in exactly one join task. */
  lemma QueueIsTheJoin(x: Join, w: Measure, Rm: seq<Tuple>, Sm: seq<Tuple>, ps: seq<nat>, bs: seq<nat>)
    requires 0 < x.probers && FirstLevel(x, ps, bs) && AllInPlace(x, Rm, Sm, ps) && AllInPlace(x, Rm, Sm, bs)
    ensures QueueSum(JoinOf(w, Rm, Sm), JoinQueue(x, ps, bs)) == NestedLoop(w, x.R, x.S)
  {
    var v, g := JoinOf(w, Rm, Sm), ClusterJoin(w, x.R, x.S, x.r1);
    forall p: nat | p in ps
      ensures Stands(v, Plain(x), g, p)
    {
      PlainValue(x, w, Rm, Sm, p);
    }
    forall p: nat | p in bs
      ensures Stands(v, Skewed(x), g, p)
    {
      SkewedValue(x, w, Rm, Sm, p);
    }
    QueueOfValue(v, Plain(x), g, ps);
    QueueOfValue(v, Skewed(x), g, bs);
    QueueConcat(v, QueueOf(Plain(x), ps), QueueOf(Skewed(x), bs));
    ListSumConcat(g, ps, bs);
    OthersAddNothing(x, w, ps, bs);
    ListIsAll(g, ps + bs, x.r1.fanout);
    JoinByClusters(w, x.R, x.S, x.r1);
  }

  lemma OthersAddNothing(x: Join, w: Measure, ps: seq<nat>, bs: seq<nat>)
    requires FirstLevel(x, ps, bs)
    ensures Distinct(ps + bs) && (forall k: nat :: k < |ps + bs| ==> (ps + bs)[k] < x.r1.fanout)
    ensures forall p: nat :: p < x.r1.fanout && p !in ps + bs ==> ClusterJoin(w, x.R, x.S, x.r1)(p) == 0
  {
    FirstLevelLists(x, ps, bs);
    forall p: nat | p < x.r1.fanout && p !in ps + bs
      ensures ClusterJoin(w, x.R, x.S, x.r1)(p) == 0
    {
      assert !Kept(true, All, FirstTask(x, p));
      JoinEmptySides(w, Sel(x.R, x.r1, p), Sel(x.S, x.r1, p));
    }
  }

  // ----- what threads add up -----

  lemma {:induction false} QueuePermutation(v: Task -> nat, a: seq<Task>, b: seq<Task>)
    requires multiset(a) == multiset(b)
    ensures QueueSum(v, a) == QueueSum(v, b)
  {
    if a == [] {
      assert |b| == |multiset(b)| == 0;
    } else {
      var t, a' := a[0], a[1..];
      assert a == [t] + a';
      var u, rest := TakeOut(t, a', b);
      QueuePermutation(v, a', u + rest);
      QueueConcat(v, u, [t] + rest);
      QueueCons(v, t, rest);
      QueueConcat(v, u, rest);
    }
  }

  /** What a thread adds up over the tasks that it fetches, in the order in which it fetches them, if
      every kernel returns the totals of the nested-loop join of its task. */
  function ThreadTotals(ts: seq<Task>, Rm: seq<Tuple>, Sm: seq<Tuple>): Totals {
    if ts == [] then ZERO
    else
      var t := ts[|ts| - 1];
      AddTotals(ThreadTotals(ts[..|ts| - 1], Rm, Sm), JoinTotals(Slice(Rm, t.rAt, t.rNum), Slice(Sm, t.sAt, t.sNum)))
  }

  /** The sum over all threads. */
  function AllTotals(fetched: seq<seq<Task>>, Rm: seq<Tuple>, Sm: seq<Tuple>): Totals {
    if fetched == [] then ZERO
    else AddTotals(AllTotals(fetched[..|fetched| - 1], Rm, Sm), ThreadTotals(fetched[|fetched| - 1], Rm, Sm))
  }

  function FlattenTasks(fetched: seq<seq<Task>>): seq<Task> {
    if fetched == [] then [] else FlattenTasks(fetched[..|fetched| - 1]) + fetched[|fetched| - 1]
  }

  lemma AddSums(m: nat, c: nat, m': nat, c': nat)
    ensures AddTotals(Sums(m, c), Sums(m', c')) == Sums(m + m', c + c')
  {
    WordPlus(m, m');
    WordPlus(c, c');
  }

  function QueueTotals(q: seq<Task>, Rm: seq<Tuple>, Sm: seq<Tuple>): Totals {
    Sums(QueueSum(JoinOf(Matched, Rm, Sm), q), QueueSum(JoinOf(Checksum, Rm, Sm), q))
  }

  lemma QueueTotalsConcat(a: seq<Task>, b: seq<Task>, Rm: seq<Tuple>, Sm: seq<Tuple>)
    ensures AddTotals(QueueTotals(a, Rm, Sm), QueueTotals(b, Rm, Sm)) == QueueTotals(a + b, Rm, Sm)
  {
    var m, c := JoinOf(Matched, Rm, Sm), JoinOf(Checksum, Rm, Sm);
    QueueConcat(m, a, b);
    QueueConcat(c, a, b);
    AddSums(QueueSum(m, a), QueueSum(c, a), QueueSum(m, b), QueueSum(c, b));
  }

  lemma OneTaskTotals(t: Task, Rm: seq<Tuple>, Sm: seq<Tuple>)
    ensures QueueTotals([t], Rm, Sm) == JoinTotals(Slice(Rm, t.rAt, t.rNum), Slice(Sm, t.sAt, t.sNum))
  {
    QueueCons(JoinOf(Matched, Rm, Sm), t, []);
    QueueCons(JoinOf(Checksum, Rm, Sm), t, []);
    assert [t] + [] == [t];
  }

  lemma {:induction false} ThreadTotalsAre(ts: seq<Task>, Rm: seq<Tuple>, Sm: seq<Tuple>)
    ensures ThreadTotals(ts, Rm, Sm) == QueueTotals(ts, Rm, Sm)
  {
    if ts != [] {
      var n := |ts| - 1;
      ThreadTotalsAre(ts[..n], Rm, Sm);
      OneTaskTotals(ts[n], Rm, Sm);
      QueueTotalsConcat(ts[..n], [ts[n]], Rm, Sm);
      assert ts == ts[..n] + [ts[n]];
    }
  }

  lemma {:induction false} AllTotalsAre(fetched: seq<seq<Task>>, Rm: seq<Tuple>, Sm: seq<Tuple>)
    ensures AllTotals(fetched, Rm, Sm) == QueueTotals(FlattenTasks(fetched), Rm, Sm)
  {
    if fetched != [] {
      var n := |fetched| - 1;
      AllTotalsAre(fetched[..n], Rm, Sm);
      ThreadTotalsAre(fetched[n], Rm, Sm);
      QueueTotalsConcat(FlattenTasks(fetched[..n]), fetched[n], Rm, Sm);
    }
  }

  /** Whichever thread fetches which task, and in whatever order: the totals of all threads are those
      of the nested-loop join of the relations. */
  lemma TheJoinIsRight(x: Join, Rm: seq<Tuple>, Sm: seq<Tuple>, ps: seq<nat>, bs: seq<nat>, fetched: seq<seq<Task>>)
    requires 0 < x.probers && FirstLevel(x, ps, bs) && AllInPlace(x, Rm, Sm, ps) && AllInPlace(x, Rm, Sm, bs)
    requires multiset(FlattenTasks(fetched)) == multiset(JoinQueue(x, ps, bs))
    ensures IsJoin(AllTotals(fetched, Rm, Sm), x.R, x.S)
  {
    var queue := JoinQueue(x, ps, bs);
    AllTotalsAre(fetched, Rm, Sm);
    QueuePermutation(JoinOf(Matched, Rm, Sm), FlattenTasks(fetched), queue);
    QueuePermutation(JoinOf(Checksum, Rm, Sm), FlattenTasks(fetched), queue);
    QueueIsTheJoin(x, Matched, Rm, Sm, ps, bs);
    QueueIsTheJoin(x, Checksum, Rm, Sm, ps, bs);
  }
}
