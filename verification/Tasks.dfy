/** Tasks: slices of the partitioned relations that are to be partitioned again or to be joined.
    Whatever creates tasks must keep the value of the queues: the join they still stand for. */
module Tasks {
  import opened Bits
  import opened Relations
  import opened Offsets
  import opened Partitioning

  datatype Task = Task(rAt: nat, rNum: nat, sAt: nat, sNum: nat)

  // ----- sums over queues -----

  function QueueSum(v: Task -> nat, q: seq<Task>): nat {
    if q == [] then 0 else v(q[0]) + QueueSum(v, q[1..])
  }

  lemma {:induction false} QueueConcat(v: Task -> nat, a: seq<Task>, b: seq<Task>)
    ensures QueueSum(v, a + b) == QueueSum(v, a) + QueueSum(v, b)
  {
    if a == [] {
      assert a + b == b;
    } else {
      assert (a + b)[1..] == a[1..] + b;
      QueueConcat(v, a[1..], b);
    }
  }

  lemma QueueCons(v: Task -> nat, t: Task, q: seq<Task>)
    ensures QueueSum(v, [t] + q) == v(t) + QueueSum(v, q)
  {
    assert ([t] + q)[1..] == q;
  }

  /** The tasks that are made of some things, one after the other. */
  function QueueOf<T>(f: T -> seq<Task>, ts: seq<T>): seq<Task> {
    if ts == [] then [] else QueueOf(f, ts[..|ts| - 1]) + f(ts[|ts| - 1])
  }

  lemma {:induction false} QueueOfConcat<T>(f: T -> seq<Task>, a: seq<T>, b: seq<T>)
    ensures QueueOf(f, a + b) == QueueOf(f, a) + QueueOf(f, b)
  {
    if b == [] {
      assert a + b == a;
    } else {
      assert (a + b)[..|a + b| - 1] == a + b[..|b| - 1];
      QueueOfConcat(f, a, b[..|b| - 1]);
    }
  }

  /** Taking an element that is there out of a sequence. */
  lemma TakeOut<T>(t: T, a: seq<T>, b: seq<T>) returns (u: seq<T>, rest: seq<T>)
    requires multiset([t] + a) == multiset(b)
    ensures b == u + ([t] + rest) && multiset(a) == multiset(u + rest)
  {
    assert t in multiset([t] + a);
    var i: nat :| i < |b| && b[i] == t;
    u, rest := b[..i], b[i + 1..];
    assert b == u + ([t] + rest);
    CancelOne(t, a, u, rest);
  }

  lemma CancelOne<T>(t: T, a: seq<T>, u: seq<T>, rest: seq<T>)
    requires multiset([t] + a) == multiset(u + ([t] + rest))
    ensures multiset(a) == multiset(u + rest)
  {
    assert multiset([t] + a) == multiset{t} + multiset(a);
    assert multiset(u + ([t] + rest)) == multiset{t} + (multiset(u) + multiset(rest));
    assert multiset(a) == multiset([t] + a) - multiset{t};
  }

  ghost function QueueCount<T>(f: T -> seq<Task>, ts: seq<T>, x: Task): nat {
    multiset(QueueOf(f, ts))[x]
  }

  lemma QueueCountAround<T>(f: T -> seq<Task>, u: seq<T>, t: T, rest: seq<T>, x: Task)
    ensures QueueCount(f, u + ([t] + rest), x) == QueueCount(f, [t], x) + QueueCount(f, u + rest, x)
  {
    QueueOfConcat(f, u, [t] + rest);
    QueueOfConcat(f, [t], rest);
    QueueOfConcat(f, u, rest);
  }

  /** The order of the things does not matter. */
  lemma {:induction false} QueueOfPermutation<T>(f: T -> seq<Task>, a: seq<T>, b: seq<T>, x: Task)
    requires multiset(a) == multiset(b)
    ensures QueueCount(f, a, x) == QueueCount(f, b, x)
  {
    if a == [] {
      assert |b| == |multiset(b)| == 0;
    } else {
      var t, a' := a[0], a[1..];
      assert a == [] + ([t] + a') && [] + a' == a' && a == [t] + a';
      var u, rest := TakeOut(t, a', b);
      QueueOfPermutation(f, a', u + rest, x);
      QueueCountAround(f, [], t, a', x);
      QueueCountAround(f, u, t, rest, x);
    }
  }

  // ----- which tasks are created -----

  /** Skew handling sorts out tasks above a limit; asymmetric tasks only by their build side. */
  datatype Rule = All | Small(limit: nat) | Big(limit: nat)

  predicate IsBig(pair: bool, t: Task, limit: nat) {
    t.rNum > limit || (pair && t.sNum > limit)
  }

  /** Is there to be a task?  Not for an empty build side, nor for an empty cluster of the probe side. */
  predicate Kept(pair: bool, rule: Rule, t: Task) {
    && t.rNum > 0 && (pair ==> t.sNum > 0)
    && match rule
       case All => true
       case Small(limit) => !IsBig(pair, t, limit)
       case Big(limit) => IsBig(pair, t, limit)
  }

  function KeptOnly(pair: bool, rule: Rule, t: Task, q: seq<Task>): seq<Task> {
    if Kept(pair, rule, t) then [t] + q else q
  }

  /** The tasks of the first `n` clusters, each added at the head of a queue. */
  function Created(cl: nat -> Task, pair: bool, rule: Rule, n: nat): seq<Task> {
    if n == 0 then [] else KeptOnly(pair, rule, cl(n - 1), Created(cl, pair, rule, n - 1))
  }

  lemma {:induction false} CreatedAtMost(cl: nat -> Task, pair: bool, rule: Rule, n: nat)
    ensures |Created(cl, pair, rule, n)| <= n
  {
    if n > 0 {
      CreatedAtMost(cl, pair, rule, n - 1);
    }
  }

  /** No side empty that must not be, and every side that counts within the limit. */
  predicate WithinLimit(pair: bool, t: Task, limit: nat) {
    0 < t.rNum <= limit && (pair ==> 0 < t.sNum <= limit)
  }

  predicate AboveLimit(pair: bool, t: Task, limit: nat) {
    0 < t.rNum && (pair ==> 0 < t.sNum) && (t.rNum > limit || (pair && t.sNum > limit))
  }

  /** Which clusters become tasks of which queue. */
  lemma {:induction false} CreatedSizes(cl: nat -> Task, pair: bool, limit: nat, n: nat)
    ensures forall t :: t in Created(cl, pair, Small(limit), n) ==> WithinLimit(pair, t, limit)
    ensures forall t :: t in Created(cl, pair, Big(limit), n) ==> AboveLimit(pair, t, limit)
    ensures forall t :: t in Created(cl, pair, All, n) ==> t.rNum > 0 && (pair ==> t.sNum > 0)
    ensures forall p: nat :: p < n && WithinLimit(pair, cl(p), limit) ==> cl(p) in Created(cl, pair, Small(limit), n)
    ensures forall p: nat :: p < n && AboveLimit(pair, cl(p), limit) ==> cl(p) in Created(cl, pair, Big(limit), n)
    ensures forall p: nat :: p < n && cl(p).rNum > 0 && (pair ==> cl(p).sNum > 0) ==> cl(p) in Created(cl, pair, All, n)
  {
    if n > 0 {
      CreatedSizes(cl, pair, limit, n - 1);
    }
  }

  function CreatedSum(v: Task -> nat, cl: nat -> Task, pair: bool, rule: Rule, n: nat): nat {
    if n == 0 then 0
    else
      var t := cl(n - 1);
      CreatedSum(v, cl, pair, rule, n - 1) + (if Kept(pair, rule, t) then v(t) else 0)
  }

  lemma {:induction false} CreatedValue(v: Task -> nat, cl: nat -> Task, pair: bool, rule: Rule, n: nat)
    ensures QueueSum(v, Created(cl, pair, rule, n)) == CreatedSum(v, cl, pair, rule, n)
  {
    if n > 0 {
      CreatedValue(v, cl, pair, rule, n - 1);
      QueueCons(v, cl(n - 1), Created(cl, pair, rule, n - 1));
    }
  }

  /** Sorting out big tasks loses none. */
  lemma {:induction false} SmallAndBig(v: Task -> nat, cl: nat -> Task, pair: bool, limit: nat, n: nat)
    ensures CreatedSum(v, cl, pair, Small(limit), n) + CreatedSum(v, cl, pair, Big(limit), n) == CreatedSum(v, cl, pair, All, n)
  {
    if n > 0 {
      SmallAndBig(v, cl, pair, limit, n - 1);
    }
  }

  /** Each cluster contributes its part of a sum, whether it becomes a task or not. */
  ghost predicate Contributes(v: Task -> nat, cl: nat -> Task, pair: bool, g: nat -> nat, p: nat) {
    var t := cl(p);
    (if Kept(pair, All, t) then v(t) else 0) == g(p)
  }

  lemma {:induction false} CreatedParts(v: Task -> nat, cl: nat -> Task, pair: bool, g: nat -> nat, n: nat)
    requires forall p: nat {:trigger Contributes(v, cl, pair, g, p)} :: p < n ==> Contributes(v, cl, pair, g, p)
    ensures CreatedSum(v, cl, pair, All, n) == SumTo(g, n)
  {
    if n > 0 {
      CreatedParts(v, cl, pair, g, n - 1);
      assert Contributes(v, cl, pair, g, n - 1);
    }
  }

  // ----- splitting big tasks -----

  /** Piece `j` of a task: all of the build side and a share of the probe side; the last piece gets
      the rest. */
  function Piece(t: Task, threads: nat, share: nat, j: nat): Task {
    Task(t.rAt, t.rNum, t.sAt + Times(j, share), if j + 1 == threads && Times(j, share) <= t.sNum then t.sNum - Times(j, share) else share)
  }

  function Pieces(t: Task, threads: nat, share: nat, n: nat): seq<Task> {
    if n == 0 then [] else [Piece(t, threads, share, n - 1)] + Pieces(t, threads, share, n - 1)
  }

  /** `n / threads`: an equal share, rounded down. */
  function Share(n: nat, threads: nat): (q: nat)
    requires 0 < threads
    ensures Times(threads, q) <= n
  {
    ShareFits(n, threads);
    n / threads
  }

  lemma ShareFits(n: nat, threads: nat)
    requires 0 < threads
    ensures Times(threads, n / threads) <= n
  {
    TimesIsProduct(threads, n / threads);
    assert n == threads * (n / threads) + n % threads;
  }

  /** An equal share of `n`, as far as whole numbers allow. */
  ghost predicate Even(n: nat, threads: nat, share: nat) {
    threads * share <= n < threads * (share + 1)
  }

  lemma ShareIsEven(n: nat, threads: nat)
    requires 0 < threads
    ensures Even(n, threads, Share(n, threads))
    ensures var rest := n - Times(threads - 1, Share(n, threads)); Share(n, threads) <= rest < Share(n, threads) + threads
  {
    var share := Share(n, threads);
    TimesIsProduct(threads, share);
    assert n == threads * share + n % threads;
    assert threads * (share + 1) == threads * share + threads;
    assert Times(threads, share) == Times(threads - 1, share) + share;
  }

  /** The pieces of a task, the last one first: each has all of the build side, together they are the
      probe side from its first to its last tuple, and they are equal up to the rest of the division,
      which goes to the last one. */
  ghost predicate EvenPieces(q: seq<Task>, t: Task, threads: nat) {
    && |q| == threads > 0
    && (forall i: nat :: i < threads ==> q[i].rAt == t.rAt && q[i].rNum == t.rNum)
    && q[threads - 1].sAt == t.sAt && q[0].sAt + q[0].sNum == t.sAt + t.sNum
    && (forall i: nat, j: nat :: j == i + 1 < threads ==> q[j].sAt + q[j].sNum == q[i].sAt)
    && (forall i: nat :: 0 < i < threads ==> Even(t.sNum, threads, q[i].sNum) && q[i].sNum <= q[0].sNum < q[i].sNum + threads)
  }

  lemma {:induction false} PieceAt(t: Task, threads: nat, share: nat, n: nat, i: nat)
    requires i < n
    ensures |Pieces(t, threads, share, n)| == n && Pieces(t, threads, share, n)[i] == Piece(t, threads, share, n - 1 - i)
  {
    if n > 1 {
      PieceAt(t, threads, share, n - 1, if i == 0 then 0 else i - 1);
    }
  }

  lemma PiecesAreEven(t: Task, threads: nat)
    requires 0 < threads
    ensures EvenPieces(Pieces(t, threads, Share(t.sNum, threads), threads), t, threads)
  {
    var share := Share(t.sNum, threads);
    var q := Pieces(t, threads, share, threads);
    ShareIsEven(t.sNum, threads);
    TimesMonotone(threads - 1, threads, share);
    PieceAt(t, threads, share, threads, 0);
    forall i: nat | i < threads
      ensures q[i] == Piece(t, threads, share, threads - 1 - i)
    {
      PieceAt(t, threads, share, threads, i);
    }
  }

  /** The task, cut off after the first pieces. */
  function Cut(t: Task, threads: nat, share: nat, j: nat): Task {
    t.(sNum := if j == threads then t.sNum else Times(j, share))
  }

  ghost predicate PieceAdds(v: Task -> nat, t: Task, threads: nat, share: nat, j: nat) {
    v(Cut(t, threads, share, j + 1)) == v(Cut(t, threads, share, j)) + v(Piece(t, threads, share, j))
  }

  lemma {:induction false} PiecesValue(v: Task -> nat, t: Task, threads: nat, share: nat, n: nat)
    requires forall j: nat :: j < n ==> PieceAdds(v, t, threads, share, j)
    requires v(Cut(t, threads, share, 0)) == 0
    ensures QueueSum(v, Pieces(t, threads, share, n)) == v(Cut(t, threads, share, n))
  {
    if n > 0 {
      PiecesValue(v, t, threads, share, n - 1);
      assert PieceAdds(v, t, threads, share, n - 1);
      QueueCons(v, Piece(t, threads, share, n - 1), Pieces(t, threads, share, n - 1));
    }
  }

  ghost predicate Splits(v: Task -> nat, t: Task, threads: nat)
    requires 0 < threads
  {
    QueueSum(v, Pieces(t, threads, Share(t.sNum, threads), threads)) == v(t)
  }

  ghost predicate ClusterSplits(v: Task -> nat, cl: nat -> Task, threads: nat, p: nat)
    requires 0 < threads
  {
    Splits(v, cl(p), threads)
  }

  /** The pieces of the big tasks among the first `n` clusters. */
  function Split(cl: nat -> Task, pair: bool, limit: nat, threads: nat, n: nat): seq<Task>
    requires 0 < threads
  {
    if n == 0 then [] else SplitOnly(pair, limit, threads, cl(n - 1), Split(cl, pair, limit, threads, n - 1))
  }

  function SplitOnly(pair: bool, limit: nat, threads: nat, t: Task, q: seq<Task>): seq<Task>
    requires 0 < threads
  {
    if Kept(pair, Big(limit), t) then Pieces(t, threads, Share(t.sNum, threads), threads) + q else q
  }

  /** A piece of a cluster above the limit: with its whole build side. */
  ghost predicate PieceOfBig(cl: nat -> Task, pair: bool, limit: nat, n: nat, t: Task) {
    exists p: nat :: p < n && AboveLimit(pair, cl(p), limit) && t.rAt == cl(p).rAt && t.rNum == cl(p).rNum
  }

  lemma {:induction false} CreatedFrom(cl: nat -> Task, pair: bool, rule: Rule, n: nat, t: Task) returns (q: nat)
    requires t in Created(cl, pair, rule, n)
    ensures q < n && t == cl(q) && Kept(pair, rule, cl(q))
  {
    if Kept(pair, rule, cl(n - 1)) && t == cl(n - 1) {
      q := n - 1;
    } else {
      q := CreatedFrom(cl, pair, rule, n - 1, t);
    }
  }

  lemma {:induction false} PieceFrom(t0: Task, threads: nat, share: nat, n: nat, t: Task)
    requires t in Pieces(t0, threads, share, n)
    ensures t.rAt == t0.rAt && t.rNum == t0.rNum
  {
    if t != Piece(t0, threads, share, n - 1) {
      PieceFrom(t0, threads, share, n - 1, t);
    }
  }

  lemma {:induction false} SplitFrom(cl: nat -> Task, pair: bool, limit: nat, threads: nat, n: nat, t: Task) returns (q: nat)
    requires 0 < threads && t in Split(cl, pair, limit, threads, n)
    ensures q < n && t.rAt == cl(q).rAt && t.rNum == cl(q).rNum && Kept(pair, Big(limit), cl(q))
  {
    var t0 := cl(n - 1);
    var pieces := Pieces(t0, threads, Share(t0.sNum, threads), threads);
    if Kept(pair, Big(limit), t0) && t in pieces {
      q := n - 1;
      PieceFrom(t0, threads, Share(t0.sNum, threads), threads, t);
    } else {
      q := SplitFrom(cl, pair, limit, threads, n - 1, t);
    }
  }

  lemma SplitSizes(cl: nat -> Task, pair: bool, limit: nat, threads: nat, n: nat)
    requires 0 < threads
    ensures forall t :: t in Split(cl, pair, limit, threads, n) ==> PieceOfBig(cl, pair, limit, n, t)
  {
    forall t | t in Split(cl, pair, limit, threads, n)
      ensures PieceOfBig(cl, pair, limit, n, t)
    {
      var q := SplitFrom(cl, pair, limit, threads, n, t);
    }
  }

  lemma SplitOneMore(v: Task -> nat, pair: bool, limit: nat, threads: nat, t: Task, q: seq<Task>)
    requires 0 < threads && Splits(v, t, threads)
    ensures QueueSum(v, SplitOnly(pair, limit, threads, t, q)) == QueueSum(v, q) + (if Kept(pair, Big(limit), t) then v(t) else 0)
  {
    QueueConcat(v, Pieces(t, threads, Share(t.sNum, threads), threads), q);
  }

  lemma {:induction false} SplitValue(v: Task -> nat, cl: nat -> Task, pair: bool, limit: nat, threads: nat, n: nat)
    requires 0 < threads
    requires forall p: nat {:trigger ClusterSplits(v, cl, threads, p)} :: p < n ==> ClusterSplits(v, cl, threads, p)
    ensures QueueSum(v, Split(cl, pair, limit, threads, n)) == CreatedSum(v, cl, pair, Big(limit), n)
  {
    if n > 0 {
      SplitValue(v, cl, pair, limit, threads, n - 1);
      assert ClusterSplits(v, cl, threads, n - 1);
      SplitOneMore(v, pair, limit, threads, cl(n - 1), Split(cl, pair, limit, threads, n - 1));
    }
  }

  // ----- the tasks of the clusters of a partitioned source -----

  /** Where a relation was partitioned: its tuples, the base of the output, the padding. */
  datatype Layout = Layout(rel: seq<Tuple>, base: nat, pad: nat)

  function At(l: Layout, r: Radix, p: nat): nat { ClusterBase(l.rel, r, l.base, l.pad, p) }

  function Size(l: Layout, r: Radix, p: nat): nat { |Sel(l.rel, r, p)| }

  /** Tasks are made of the clusters of both sides, or (asymmetrically) of the clusters of the build
      side and all of the probe side of an earlier task. */
  datatype Source = Pair(rl: Layout, sl: Layout) | Whole(rl: Layout, task: Task)

  function ClusterTask(src: Source, r: Radix, p: nat): Task {
    match src
    case Pair(rl, sl) => Task(At(rl, r, p), Size(rl, r, p), At(sl, r, p), Size(sl, r, p))
    case Whole(rl, t) => Task(At(rl, r, p), Size(rl, r, p), t.sAt, t.sNum)
  }

  function Clusters(src: Source, r: Radix): nat -> Task {
    (p: nat) => ClusterTask(src, r, p)
  }

  // ----- the join that a queue stands for -----

  function Slice(mem: seq<Tuple>, at: nat, n: nat): seq<Tuple> {
    if at + n <= |mem| then mem[at..at + n] else []
  }

  /** The join of one task. */
  function TaskJoin(w: Measure, t: Task, R: seq<Tuple>, S: seq<Tuple>): nat {
    NestedLoop(w, Slice(R, t.rAt, t.rNum), Slice(S, t.sAt, t.sNum))
  }

  function JoinOf(w: Measure, R: seq<Tuple>, S: seq<Tuple>): Task -> nat {
    (t: Task) => TaskJoin(w, t, R, S)
  }

  ghost predicate Placed(mem: seq<Tuple>, l: Layout, r: Radix) { Partitioned(mem, l.rel, r, l.base, l.pad) }

  /** The source in place: what the tasks are slices of. */
  ghost predicate Ready(src: Source, r: Radix, R: seq<Tuple>, S: seq<Tuple>) {
    && Placed(R, src.rl, r)
    && match src
       case Pair(_, sl) => Placed(S, sl, r)
       case Whole(_, t) => t.sAt + t.sNum <= |S|
  }

  /** The probe side of a source. */
  function ProbeSide(src: Source, S: seq<Tuple>): seq<Tuple> {
    match src
    case Pair(_, sl) => sl.rel
    case Whole(_, t) => Slice(S, t.sAt, t.sNum)
  }

  lemma SliceIsCluster(mem: seq<Tuple>, l: Layout, r: Radix, p: nat)
    requires Placed(mem, l, r) && p < r.fanout
    ensures Slice(mem, At(l, r, p), Size(l, r, p)) == Sel(l.rel, r, p)
    ensures At(l, r, p) + Size(l, r, p) <= |mem|
  {
    assert HoldsAt(mem, ClusterBase(l.rel, r, l.base, l.pad, p), Sel(l.rel, r, p));
  }

  /** What cluster `p` adds to the join of the source. */
  function Parts(w: Measure, src: Source, r: Radix, S: seq<Tuple>): nat -> nat {
    match src
    case Pair(rl, sl) => ClusterJoin(w, rl.rel, sl.rel, r)
    case Whole(rl, _) => BuildSideJoin(w, rl.rel, ProbeSide(src, S), r)
  }

  lemma ClusterContributes(w: Measure, src: Source, r: Radix, R: seq<Tuple>, S: seq<Tuple>, p: nat)
    requires Ready(src, r, R, S) && p < r.fanout
    ensures Contributes(JoinOf(w, R, S), Clusters(src, r), src.Pair?, Parts(w, src, r, S), p)
  {
    SliceIsCluster(R, src.rl, r, p);
    if src.Pair? {
      SliceIsCluster(S, src.sl, r, p);
      JoinEmptySides(w, Sel(src.rl.rel, r, p), Sel(src.sl.rel, r, p));
    } else {
      JoinEmptySides(w, Sel(src.rl.rel, r, p), ProbeSide(src, S));
    }
  }

  lemma JoinEmptySides(w: Measure, R: seq<Tuple>, S: seq<Tuple>)
    ensures R == [] || S == [] ==> NestedLoop(w, R, S) == 0
  {
    if R == [] || S == [] {
      JoinEmpty(w, R, S);
    }
  }

  lemma PartsAreTheJoin(w: Measure, src: Source, r: Radix, S: seq<Tuple>)
    ensures SumTo(Parts(w, src, r, S), r.fanout) == NestedLoop(w, src.rl.rel, ProbeSide(src, S))
  {
    if src.Pair? {
      JoinByClusters(w, src.rl.rel, src.sl.rel, r);
    } else {
      JoinByBuildClusters(w, src.rl.rel, ProbeSide(src, S), r);
    }
  }

  /** The tasks created from a partitioned source stand for the join of the source: no pair of
      tuples is lost with the dropped tasks, and none is counted twice. */
  lemma TasksKeepTheJoin(w: Measure, src: Source, r: Radix, R: seq<Tuple>, S: seq<Tuple>)
    requires Ready(src, r, R, S)
    ensures CreatedSum(JoinOf(w, R, S), Clusters(src, r), src.Pair?, All, r.fanout) == NestedLoop(w, src.rl.rel, ProbeSide(src, S))
    ensures QueueSum(JoinOf(w, R, S), Created(Clusters(src, r), src.Pair?, All, r.fanout)) == NestedLoop(w, src.rl.rel, ProbeSide(src, S))
  {
    CreatedValue(JoinOf(w, R, S), Clusters(src, r), src.Pair?, All, r.fanout);
    forall p: nat | p < r.fanout
      ensures Contributes(JoinOf(w, R, S), Clusters(src, r), src.Pair?, Parts(w, src, r, S), p)
    {
      ClusterContributes(w, src, r, R, S, p);
    }
    CreatedParts(JoinOf(w, R, S), Clusters(src, r), src.Pair?, Parts(w, src, r, S), r.fanout);
    PartsAreTheJoin(w, src, r, S);
  }

  lemma SliceCut(S: seq<Tuple>, at: nat, n: nat, m: nat)
    requires at + n + m <= |S|
    ensures Slice(S, at, n + m) == Slice(S, at, n) + Slice(S, at + n, m)
  {
  }

  lemma JoinCut(w: Measure, B: seq<Tuple>, S: seq<Tuple>, at: nat, n: nat, m: nat)
    requires at + n + m <= |S|
    ensures NestedLoop(w, B, Slice(S, at, n + m)) == NestedLoop(w, B, Slice(S, at, n)) + NestedLoop(w, B, Slice(S, at + n, m))
  {
    var u, v, uv := Slice(S, at, n), Slice(S, at + n, m), Slice(S, at, n + m);
    assert uv == u + v by {
      SliceCut(S, at, n, m);
    }
    JoinConcat(w, B, u, v);
  }

  lemma CutMore(w: Measure, t: Task, n: nat, m: nat, R: seq<Tuple>, S: seq<Tuple>)
    requires t.sAt + n + m <= |S|
    ensures TaskJoin(w, t.(sNum := n + m), R, S)
         == TaskJoin(w, t.(sNum := n), R, S) + TaskJoin(w, Task(t.rAt, t.rNum, t.sAt + n, m), R, S)
  {
    JoinCut(w, Slice(R, t.rAt, t.rNum), S, t.sAt, n, m);
  }

  lemma PieceAddsJoin(w: Measure, t: Task, threads: nat, share: nat, j: nat, R: seq<Tuple>, S: seq<Tuple>)
    requires j < threads && Times(threads, share) <= t.sNum && t.sAt + t.sNum <= |S|
    ensures PieceAdds(JoinOf(w, R, S), t, threads, share, j)
  {
    TimesMonotone(j, threads, share);
    TimesMonotone(j + 1, threads, share);
    var n := Times(j, share);
    var m := if j + 1 == threads then t.sNum - n else share;
    CutMore(w, t, n, m, R, S);
    assert Piece(t, threads, share, j) == Task(t.rAt, t.rNum, t.sAt + n, m);
    assert Cut(t, threads, share, j + 1) == t.(sNum := n + m);
    assert Cut(t, threads, share, j) == t.(sNum := n);
  }

  /** The pieces of a task stand for the join of the task. */
  lemma PiecesKeepTheJoin(w: Measure, t: Task, threads: nat, R: seq<Tuple>, S: seq<Tuple>)
    requires 0 < threads && t.sAt + t.sNum <= |S|
    ensures Splits(JoinOf(w, R, S), t, threads)
  {
    var share := Share(t.sNum, threads);
    forall j: nat | j < threads
      ensures PieceAdds(JoinOf(w, R, S), t, threads, share, j)
    {
      PieceAddsJoin(w, t, threads, share, j, R, S);
    }
    JoinEmpty(w, Slice(R, t.rAt, t.rNum), Slice(S, t.sAt, 0));
    PiecesValue(JoinOf(w, R, S), t, threads, share, threads);
    assert Cut(t, threads, share, threads) == t;
  }

  lemma ClusterPieces(w: Measure, src: Source, r: Radix, R: seq<Tuple>, S: seq<Tuple>, threads: nat, p: nat)
    requires 0 < threads && Ready(src, r, R, S) && p < r.fanout
    ensures ClusterSplits(JoinOf(w, R, S), Clusters(src, r), threads, p)
  {
    if src.Pair? {
      SliceIsCluster(S, src.sl, r, p);
    }
    PiecesKeepTheJoin(w, ClusterTask(src, r, p), threads, R, S);
  }

  /** Skew handling: the small tasks and the pieces of the big ones stand for the join. */
  lemma SkewKeepsTheJoin(w: Measure, src: Source, r: Radix, limit: nat, threads: nat, R: seq<Tuple>, S: seq<Tuple>)
    requires 0 < threads && Ready(src, r, R, S)
    ensures QueueSum(JoinOf(w, R, S), Created(Clusters(src, r), src.Pair?, Small(limit), r.fanout))
          + QueueSum(JoinOf(w, R, S), Split(Clusters(src, r), src.Pair?, limit, threads, r.fanout))
         == NestedLoop(w, src.rl.rel, ProbeSide(src, S))
  {
    var v := JoinOf(w, R, S);
    forall p: nat | p < r.fanout
      ensures ClusterSplits(v, Clusters(src, r), threads, p)
    {
      ClusterPieces(w, src, r, R, S, threads, p);
    }
    SplitValue(v, Clusters(src, r), src.Pair?, limit, threads, r.fanout);
    CreatedValue(v, Clusters(src, r), src.Pair?, Small(limit), r.fanout);
    SmallAndBig(v, Clusters(src, r), src.Pair?, limit, r.fanout);
    TasksKeepTheJoin(w, src, r, R, S);
  }

  /** First-level tasks: those to be partitioned by one thread and those to be partitioned by all
      threads stand for the join. */
  lemma FirstLevelKeepsTheJoin(w: Measure, src: Source, r: Radix, limit: nat, R: seq<Tuple>, S: seq<Tuple>)
    requires Ready(src, r, R, S)
    ensures QueueSum(JoinOf(w, R, S), Created(Clusters(src, r), src.Pair?, Small(limit), r.fanout))
          + QueueSum(JoinOf(w, R, S), Created(Clusters(src, r), src.Pair?, Big(limit), r.fanout))
         == NestedLoop(w, src.rl.rel, ProbeSide(src, S))
  {
    var v := JoinOf(w, R, S);
    CreatedValue(v, Clusters(src, r), src.Pair?, Small(limit), r.fanout);
    CreatedValue(v, Clusters(src, r), src.Pair?, Big(limit), r.fanout);
    SmallAndBig(v, Clusters(src, r), src.Pair?, limit, r.fanout);
    TasksKeepTheJoin(w, src, r, R, S);
  }
}
