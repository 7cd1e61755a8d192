/** The pieces of a big task: several threads build the same reordered relation into the same array,
    and each probes it with its own piece of the probe side as soon as its own build is done, however
    far the others are. */
module ReplicatedJoin {
  import opened Bits
  import opened Relations
  import opened Runs
  import opened Offsets
  import opened Accumulators
  import H = HistogramJoin

  /** The shared build side, and the piece of each thread. */
  datatype Task = Task(c: H.Shared, S: seq<seq<Tuple>>)

  /** Which probe tuple, how many tuples of its run are compared, and the totals so far. */
  datatype Prober = Prober(n: nat, j: nat, acc: Totals)

  datatype State = State(s: H.State, ps: seq<Prober>)

  ghost predicate Init(x: Task, y: State) {
    && H.Init(x.c, y.s) && |y.ps| == |x.S| == x.c.threads
    && forall k: nat :: k < |y.ps| ==> y.ps[k] == Prober(0, 0, ZERO)
  }

  ghost predicate HasBuilt(x: Task, y: State, k: nat) {
    k < |y.s.bs| && y.s.bs[k].cleared == x.c.pad && y.s.bs[k].i == |x.c.R|
  }

  /** Multiplication by a truth value. */
  function Flagged(x: nat, flag: bool): nat { if flag then x else 0 }

  /** Where the run of `h` begins, from the ends that the thread has counted, without a branch. */
  function From(ends: seq<nat>, h: nat): nat
    requires h < |ends|
  {
    Flagged(ends[h - (if h != 0 then 1 else 0)], h != 0)
  }

  ghost predicate Build(x: Task, y: State, y': State) {
    y'.ps == y.ps && H.Next(x.c, y.s, y'.s)
  }

  /** One comparison, or the step to the next probe tuple; the array is read as it is now. */
  ghost predicate Probe(x: Task, y: State, y': State, k: nat) {
    && HasBuilt(x, y, k) && k < |y.ps| == |x.S| && y.ps[k].n < |x.S[k]| && y'.s == y.s
    && var Prober(n, j, acc) := y.ps[k];
       var h, ends := Hash(x.c.r, x.S[k][n].key), y.s.bs[k].ends;
       && h < |ends|
       && if From(ends, h) + j < ends[h] then
            && From(ends, h) + j < |y.s.mem|
            && y'.ps == y.ps[k := Prober(n, j + 1, AddPair(acc, y.s.mem[From(ends, h) + j], x.S[k][n]))]
          else y'.ps == y.ps[k := Prober(n + 1, 0, acc)]
  }

  ghost predicate Next(x: Task, y: State, y': State) {
    Build(x, y, y') || exists k: nat :: Probe(x, y, y', k)
  }

  /** What has been compared: pairs of the build side, in whichever state the array was. */
  ghost predicate ProberOk(x: Task, k: nat, p: Prober)
    requires k < |x.S|
  {
    && p.n <= |x.S[k]|
    && if p.n < |x.S[k]| then
         var run := Sel(x.c.R, x.c.r, Hash(x.c.r, x.S[k][p.n].key));
         p.j <= |run| && Partly(p.acc, x.c.R, x.S[k][..p.n], run[..p.j], x.S[k][p.n])
       else p.j == 0 && IsJoin(p.acc, x.c.R, x.S[k])
  }

  ghost predicate Inv(x: Task, y: State) {
    && H.Inv(x.c, y.s) && |y.ps| == |x.S| == x.c.threads
    && forall k: nat :: k < |y.ps| ==> ProberOk(x, k, y.ps[k])
  }

  /** The ends that a builder has counted when it is done. */
  lemma EndIs(c: H.Shared, mem: seq<Tuple>, b: H.Builder, h: nat)
    requires H.BuilderOk(c, mem, b) && b.i == |c.R| && h < c.r.fanout
    ensures b.ends[h] == Below(c.R, c.r, h + 1)
  {
    assert c.R[..|c.R|] == c.R;
  }

  lemma FromIs(R: seq<Tuple>, r: Radix, ends: seq<nat>, h: nat)
    requires h < |ends| && (h > 0 ==> ends[h - 1] == Below(R, r, h))
    ensures From(ends, h) == Below(R, r, h)
  {
  }

  lemma RunAt(c: H.Shared, mem: seq<Tuple>, h: nat)
    requires H.Reordered(mem, H.Ends(c.R, c.r), c.R, c.r) && h < c.r.fanout
    ensures Below(c.R, c.r, h) <= Below(c.R, c.r, h + 1) <= |mem|
    ensures mem[Below(c.R, c.r, h)..Below(c.R, c.r, h + 1)] == Sel(c.R, c.r, h)
  {
    H.RunHolds(mem, H.Ends(c.R, c.r), c.R, c.r, h);
  }

  /** What a thread reads after its own build. */
  lemma RunIsThere(x: Task, y: State, k: nat, h: nat)
    requires Inv(x, y) && HasBuilt(x, y, k) && h < x.c.r.fanout
    ensures |y.s.bs[k].ends| == x.c.r.fanout
    ensures var lo, hi := From(y.s.bs[k].ends, h), y.s.bs[k].ends[h];
      lo <= hi <= |y.s.mem| && y.s.mem[lo..hi] == Sel(x.c.R, x.c.r, h)
  {
    var b := y.s.bs[k];
    assert H.BuilderOk(x.c, y.s.mem, b);
    H.DoneIsReordered(x.c, y.s.mem, b);
    EndIs(x.c, y.s.mem, b, h);
    if h > 0 {
      EndIs(x.c, y.s.mem, b, h - 1);
    }
    FromIs(x.c.R, x.c.r, b.ends, h);
    RunAt(x.c, y.s.mem, h);
  }

  lemma BeginProber(x: Task, k: nat, n: nat, acc: Totals)
    requires k < |x.S| && n <= |x.S[k]| && IsJoin(acc, x.c.R, x.S[k][..n])
    ensures ProberOk(x, k, Prober(n, 0, acc))
  {
    if n < |x.S[k]| {
      var run := Sel(x.c.R, x.c.r, Hash(x.c.r, x.S[k][n].key));
      assert run[..0] == [];
      PartlyStart(acc, x.c.R, x.S[k][..n], x.S[k][n]);
    } else {
      assert x.S[k][..n] == x.S[k];
    }
  }

  lemma Element(mem: seq<Tuple>, lo: nat, hi: nat, j: nat)
    requires lo + j < hi <= |mem|
    ensures mem[lo + j] == mem[lo..hi][j]
  {
  }

  /** One more tuple of the run is compared. */
  lemma Compared(x: Task, k: nat, n: nat, j: nat, acc: Totals)
    requires k < |x.S| && n < |x.S[k]| && ProberOk(x, k, Prober(n, j, acc))
    requires j < |Sel(x.c.R, x.c.r, Hash(x.c.r, x.S[k][n].key))|
    ensures ProberOk(x, k, Prober(n, j + 1, AddPair(acc, Sel(x.c.R, x.c.r, Hash(x.c.r, x.S[k][n].key))[j], x.S[k][n])))
  {
    var s := x.S[k][n];
    var run := Sel(x.c.R, x.c.r, Hash(x.c.r, s.key));
    PartlyOne(acc, x.c.R, x.S[k][..n], run[..j], run[j], s);
    assert run[..j + 1] == run[..j] + [run[j]];
  }

  lemma CompareOne(x: Task, y: State, y': State, k: nat)
    requires Inv(x, y) && Probe(x, y, y', k) && y'.ps[k].n == y.ps[k].n
    ensures ProberOk(x, k, y'.ps[k])
  {
    var Prober(n, j, acc) := y.ps[k];
    var h := Hash(x.c.r, x.S[k][n].key);
    RunIsThere(x, y, k, h);
    assert ProberOk(x, k, y.ps[k]);
    Element(y.s.mem, From(y.s.bs[k].ends, h), y.s.bs[k].ends[h], j);
    Compared(x, k, n, j, acc);
    assert y'.ps[k] == Prober(n, j + 1, AddPair(acc, Sel(x.c.R, x.c.r, h)[j], x.S[k][n]));
  }

  lemma NextProbe(x: Task, y: State, y': State, k: nat)
    requires Inv(x, y) && Probe(x, y, y', k) && y'.ps[k].n != y.ps[k].n
    ensures ProberOk(x, k, y'.ps[k])
  {
    var Prober(n, j, acc) := y.ps[k];
    var h := Hash(x.c.r, x.S[k][n].key);
    RunIsThere(x, y, k, h);
    assert ProberOk(x, k, y.ps[k]);
    var run := Sel(x.c.R, x.c.r, h);
    assert run[..j] == run;
    H.RunIsEnough(acc, x.c.R, x.S[k], x.c.r, n);
    BeginProber(x, k, n + 1, acc);
  }

  lemma NextKeepsInv(x: Task, y: State, y': State)
    requires Inv(x, y) && Next(x, y, y')
    ensures Inv(x, y')
  {
    if Build(x, y, y') {
      H.NextKeepsInv(x.c, y.s, y'.s);
    } else {
      var k: nat :| Probe(x, y, y', k);
      if y'.ps[k].n == y.ps[k].n {
        CompareOne(x, y, y', k);
      } else {
        NextProbe(x, y, y', k);
      }
    }
  }

  lemma InitHasInv(x: Task, y: State)
    requires Init(x, y)
    ensures Inv(x, y)
  {
    H.InitHasInv(x.c, y.s);
    PartlyZero(x.c.R);
    forall k: nat | k < |y.ps|
      ensures ProberOk(x, k, y.ps[k])
    {
      assert x.S[k][..0] == [];
      BeginProber(x, k, 0, ZERO);
    }
  }

  ghost predicate Run(x: Task, tr: seq<State>) {
    IsRun(tr, (y: State) => Init(x, y), (y: State, y': State) => Next(x, y, y'))
  }

  lemma RunHasInv(x: Task, tr: seq<State>, i: nat)
    requires Run(x, tr) && i < |tr|
    ensures Inv(x, tr[i])
  {
    forall y | Init(x, y)
      ensures Inv(x, y)
    {
      InitHasInv(x, y);
    }
    forall y, y' | Inv(x, y) && Next(x, y, y')
      ensures Inv(x, y')
    {
      NextKeepsInv(x, y, y');
    }
    Invariant(tr, (y: State) => Init(x, y), (y: State, y': State) => Next(x, y, y'), (y: State) => Inv(x, y), i);
  }

  /** Under every interleaving of the builds and the probes, a thread that has finished has the totals
      of the build side with its own piece. */
  lemma EveryPieceIsRight(x: Task, tr: seq<State>, i: nat, k: nat)
    requires Run(x, tr) && i < |tr| && k < |x.S| == |tr[i].ps| && tr[i].ps[k].n == |x.S[k]|
    ensures IsJoin(tr[i].ps[k].acc, x.c.R, x.S[k])
  {
    RunHasInv(x, tr, i);
    assert ProberOk(x, k, tr[i].ps[k]);
  }

  // ----- every thread finishes -----

  /** A step of thread `k`. */
  ghost predicate Moves(x: Task, y: State, y': State, k: nat) {
    (y'.ps == y.ps && H.Builds(x.c, y.s, y'.s, k)) || Probe(x, y, y', k)
  }

  lemma MovesIsNext(x: Task, y: State, y': State, k: nat)
    requires Moves(x, y, y', k)
    ensures Next(x, y, y')
  {
  }

  lemma CanProbe(x: Task, y: State, k: nat)
    requires HasBuilt(x, y, k) && k < |y.ps| == |x.S| && y.ps[k].n < |x.S[k]|
    requires var h, ends := Hash(x.c.r, x.S[k][y.ps[k].n].key), y.s.bs[k].ends;
      h < |ends| && ends[h] <= |y.s.mem|
    ensures exists y' :: Probe(x, y, y', k)
  {
    var Prober(n, j, acc) := y.ps[k];
    var h, ends := Hash(x.c.r, x.S[k][n].key), y.s.bs[k].ends;
    var at := From(ends, h) + j;
    var p := if at < ends[h] then Prober(n, j + 1, AddPair(acc, y.s.mem[at], x.S[k][n])) else Prober(n + 1, 0, acc);
    assert Probe(x, y, State(y.s, y.ps[k := p]), k);
  }

  lemma ProberGoesOn(x: Task, y: State, k: nat)
    requires Inv(x, y) && HasBuilt(x, y, k) && k < |x.S| && y.ps[k].n < |x.S[k]|
    ensures exists y' :: Probe(x, y, y', k)
  {
    RunIsThere(x, y, k, Hash(x.c.r, x.S[k][y.ps[k].n].key));
    CanProbe(x, y, k);
  }

  /** No thread ever waits: until its own build and its own piece are done, it can take a step. */
  lemma NeverStuck(x: Task, tr: seq<State>, i: nat, k: nat)
    requires Run(x, tr) && i < |tr| && k < x.c.threads == |x.S| == |tr[i].ps|
    requires !HasBuilt(x, tr[i], k) || tr[i].ps[k].n < |x.S[k]|
    ensures exists y' :: Moves(x, tr[i], y', k) && Next(x, tr[i], y')
  {
    var y := tr[i];
    RunHasInv(x, tr, i);
    if HasBuilt(x, y, k) {
      ProberGoesOn(x, y, k);
      var y' :| Probe(x, y, y', k);
      assert Moves(x, y, y', k);
    } else {
      H.BuilderGoesOn(x.c, y.s, k);
      var s' :| H.Builds(x.c, y.s, s', k);
      assert Moves(x, y, State(s', y.ps), k);
      MovesIsNext(x, y, State(s', y.ps), k);
    }
  }

  /** The comparisons and the steps to the next tuple; no run is longer than the build side. */
  function ProbeLeft(most: nat, len: nat, p: Prober): nat {
    if p.n >= len then 0 else Times(len - p.n - 1, most + 1) + (if p.j <= most then most + 1 - p.j else 0)
  }

  function ThreadLeft(x: Task, y: State): nat -> nat {
    (k: nat) => if k < |y.s.bs| && k < |y.ps| && k < |x.S|
                then H.BuildLeft(x.c, y.s.bs[k]) + ProbeLeft(|x.c.R|, |x.S[k]|, y.ps[k]) else 0
  }

  lemma OneComparison(most: nat, len: nat, n: nat, j: nat, acc: Totals, acc': Totals)
    requires n < len && j <= most
    ensures ProbeLeft(most, len, Prober(n, j + 1, acc')) < ProbeLeft(most, len, Prober(n, j, acc))
    ensures ProbeLeft(most, len, Prober(n + 1, 0, acc')) < ProbeLeft(most, len, Prober(n, j, acc))
  {
  }

  lemma ComparedIsFew(x: Task, y: State, k: nat)
    requires Inv(x, y) && k < |y.ps| && y.ps[k].n < |x.S[k]|
    ensures y.ps[k].j <= |x.c.R|
  {
    assert ProberOk(x, k, y.ps[k]);
    H.RunBounds(x.c.R, x.c.r, Hash(x.c.r, x.S[k][y.ps[k].n].key));
  }

  lemma ProbeMoves(x: Task, y: State, y': State, k: nat) returns (p: Prober)
    requires Probe(x, y, y', k)
    ensures y'.s == y.s && y'.ps == y.ps[k := p]
    ensures (p.n == y.ps[k].n && p.j == y.ps[k].j + 1) || (p.n == y.ps[k].n + 1 && p.j == 0)
  {
    p := y'.ps[k];
  }

  lemma ProberDrops(x: Task, y: State, k: nat, p: Prober)
    requires k < |y.ps| == |x.S| == |y.s.bs| == x.c.threads
    requires ProbeLeft(|x.c.R|, |x.S[k]|, p) < ProbeLeft(|x.c.R|, |x.S[k]|, y.ps[k])
    ensures SumTo(ThreadLeft(x, State(y.s, y.ps[k := p])), x.c.threads) < SumTo(ThreadLeft(x, y), x.c.threads)
  {
    SumToDrops(ThreadLeft(x, y), ThreadLeft(x, State(y.s, y.ps[k := p])), k, x.c.threads);
  }

  lemma ProbeUsesOneUp(x: Task, y: State, y': State, k: nat)
    requires Inv(x, y) && Probe(x, y, y', k)
    ensures SumTo(ThreadLeft(x, y'), x.c.threads) < SumTo(ThreadLeft(x, y), x.c.threads)
  {
    var p := ProbeMoves(x, y, y', k);
    ComparedIsFew(x, y, k);
    OneComparison(|x.c.R|, |x.S[k]|, y.ps[k].n, y.ps[k].j, y.ps[k].acc, p.acc);
    ProberDrops(x, y, k, p);
  }

  lemma BuildUsesOneUp(x: Task, y: State, y': State)
    requires Inv(x, y) && Build(x, y, y')
    ensures SumTo(ThreadLeft(x, y'), x.c.threads) < SumTo(ThreadLeft(x, y), x.c.threads)
  {
    var k: nat :| H.Builds(x.c, y.s, y'.s, k);
    H.BuildUsesOneUp(x.c, y.s, y'.s, k);
    SumToDrops(ThreadLeft(x, y), ThreadLeft(x, y'), k, x.c.threads);
  }

  lemma NextUsesOneUp(x: Task, y: State, y': State)
    requires Inv(x, y) && Next(x, y, y')
    ensures SumTo(ThreadLeft(x, y'), x.c.threads) < SumTo(ThreadLeft(x, y), x.c.threads)
  {
    if Build(x, y, y') {
      BuildUsesOneUp(x, y, y');
    } else {
      var k: nat :| Probe(x, y, y', k);
      ProbeUsesOneUp(x, y, y', k);
    }
  }

  /** The padding, the build side, and for every probe tuple at most a comparison with each tuple of the
      build side and one step more. */
  function Budget(x: Task): nat -> nat {
    (k: nat) => if k < |x.S| then x.c.pad + |x.c.R| + Times(|x.S[k]|, |x.c.R| + 1) else 0
  }

  lemma StartWithinBudget(x: Task, y: State)
    requires Init(x, y)
    ensures SumTo(ThreadLeft(x, y), x.c.threads) == SumTo(Budget(x), x.c.threads)
  {
    forall k: nat | k < x.c.threads
      ensures ThreadLeft(x, y)(k) == Budget(x)(k)
    {
      assert y.ps[k] == Prober(0, 0, ZERO);
    }
    SumToSame(ThreadLeft(x, y), Budget(x), x.c.threads);
  }

  /** No run is longer than that. */
  lemma RunsEnd(x: Task, tr: seq<State>)
    requires Run(x, tr)
    ensures |tr| - 1 <= SumTo(Budget(x), x.c.threads)
  {
    forall y | Init(x, y)
      ensures Inv(x, y)
    {
      InitHasInv(x, y);
    }
    forall y, y' | Inv(x, y) && Next(x, y, y')
      ensures Inv(x, y') && SumTo(ThreadLeft(x, y'), x.c.threads) < SumTo(ThreadLeft(x, y), x.c.threads)
    {
      NextKeepsInv(x, y, y');
      NextUsesOneUp(x, y, y');
    }
    Bounded(tr, (y: State) => Init(x, y), (y: State, y': State) => Next(x, y, y'), (y: State) => Inv(x, y),
            (y: State) => SumTo(ThreadLeft(x, y), x.c.threads), |tr| - 1);
    StartWithinBudget(x, tr[0]);
  }
}
