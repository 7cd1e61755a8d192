/** The join phase of one thread: it runs the chosen kernel on every task that it fetches, and adds up
    what the kernel returns. */
module JoinPhase {
  import opened Bits
  import opened Relations
  import opened Accumulators
  import opened Tasks
  import opened JoinQueues
  import opened IntermediateBuffers
  import opened Probing
  import BucketChaining
  import LinearProbing
  import SeparateChaining
  import HistogramJoin
  import VectorProbe

  datatype Kernel = Bc | Lp(selective: bool) | Sc(cap: nat) | Hr | Hro

  /** The table of a kernel: as many hash values as the rounded number of tuples, fewer for the kernels
      that keep several tuples per value, above the radix bits of both passes. */
  function Table(k: Kernel, n: nat, bits: nat): Radix
    requires 0 < n && (k.Sc? ==> 0 < k.cap <= NextPow2(n))
  {
    match k
    case Sc(cap) => SmallTable(NextPow2(n), cap, bits)
    case Hro => Radix(if NextPow2(n) / 4 < 4 then 4 else NextPow2(n) / 4, bits)
    case _ => Radix(NextPow2(n), bits)
  }

  function SmallTable(size: nat, cap: nat, bits: nat): Radix
    requires 0 < cap <= size
  {
    Quotient(size, cap);
    Radix(size / cap, bits)
  }

  lemma Quotient(size: nat, cap: nat)
    requires 0 < cap <= size
    ensures 0 < size / cap
  {
  }

  lemma ScTable(n: nat, cap: nat)
    requires 0 < n && IsPow2(cap) && cap <= NextPow2(n)
    ensures 0 < cap && 0 < NextPow2(n) / cap && n <= Times(NextPow2(n) / cap, cap)
  {
    var k := NextPow2IsPow2(n);
    SeparateChaining.ChosenSizesFit(n, NextPow2(n), cap);
  }

  /** The table is as small as it may be: a slot or a bucket for every tuple, or a bucket for as many as
      it holds, and less than twice as many.  The vectorised kernel has at least four. */
  lemma TableIsTight(k: Kernel, n: nat, bits: nat)
    requires 0 < n && (k.Sc? ==> IsPow2(k.cap) && k.cap <= NextPow2(n))
    ensures k.Sc? ==> 0 < k.cap
    ensures Table(k, n, bits).skip == bits
    ensures k.Bc? || k.Lp? || k.Hr? ==> IsPow2(Table(k, n, bits).fanout) && n <= Table(k, n, bits).fanout < 2 * n
    ensures k.Sc? ==> n <= Times(Table(k, n, bits).fanout, k.cap) < 2 * n
    ensures k.Hro? ==> Table(k, n, bits).fanout >= 4 && (n > 8 ==> n <= 4 * Table(k, n, bits).fanout < 2 * n)
  {
    var j := NextPow2IsPow2(n);
    NextPow2BelowTwice(n);
    match k
    case Sc(cap) =>
      ScTable(n, cap);
      TimesIsProduct(NextPow2(n) / cap, cap);
      WholeBuckets(NextPow2(n), cap);
    case Hro =>
      if n > 8 {
        BigPow2(j);
        FourDivides(j);
      }
    case _ =>
  }

  lemma FourDivides(j: nat)
    requires j >= 2
    ensures 4 * (Pow2(j) / 4) == Pow2(j)
  {
    assert Pow2(j) == 2 * Pow2(j - 1) == 4 * Pow2(j - 2);
    FourTimes(Pow2(j - 2));
  }

  lemma FourTimes(x: nat)
    ensures 4 * x / 4 == x
  {
  }

  /** What a kernel needs to return the join of a task.  The chaining and the histogram kernel need
      nothing. */
  ghost predicate Suits(k: Kernel, R: seq<Tuple>, S: seq<Tuple>, bits: nat)
    requires R != []
  {
    match k
    case Bc => true
    case Lp(selective) =>
      && LinearProbing.Nonzero(R) && AtMostOne(R, S)
      && (selective || |R| < NextPow2(|R|) || EveryKeyOccurs(R, S))
    case Sc(cap) => IsPow2(cap) && cap <= NextPow2(|R|)
    case Hr => true
    case Hro => |S| < WORD / 4 && (VectorProbe.ZeroKeys(S) == 0 || VectorProbe.Excess(R, Table(Hro, |R|, bits)) == 0)
  }

  method RunKernel(k: Kernel, R: seq<Tuple>, S: seq<Tuple>, bits: nat) returns (acc: Totals)
    requires R != [] && Suits(k, R, S, bits)
    ensures IsJoin(acc, R, S)
  {
    match k {
      case Bc =>
        acc := BucketChaining.BcJoin(R, S, Table(Bc, |R|, bits));
      case Lp(selective) =>
        acc := LinearProbing.LpJoin(R, S, Table(Lp(selective), |R|, bits), selective);
      case Sc(cap) =>
        ScTable(|R|, cap);
        var freeIdx: nat;
        acc, freeIdx := SeparateChaining.ScJoin(R, S, Table(Sc(cap), |R|, bits), cap);
      case Hr =>
        var out := new Tuple[|R|](_ => Tuple(0, 0));
        acc := HistogramJoin.HrJoin(R, S, Table(Hr, |R|, bits), out);
      case Hro =>
        var out := new Tuple[|R| + 4](_ => Tuple(0, 0));
        acc := VectorProbe.HroJoin(R, S, Table(Hro, |R|, bits), out);
        VectorProbe.HroIsTheJoin(acc, R, S, Table(Hro, |R|, bits));
    }
  }

  /** A task whose slices are nonempty on the build side and inside the arrays. */
  ghost predicate TaskSuits(k: Kernel, t: Task, Rm: seq<Tuple>, Sm: seq<Tuple>, bits: nat) {
    && 0 < t.rNum && t.rAt + t.rNum <= |Rm| && t.sAt + t.sNum <= |Sm|
    && Suits(k, Slice(Rm, t.rAt, t.rNum), Slice(Sm, t.sAt, t.sNum), bits)
  }

  /** The loop of a probing thread over the tasks that it fetches.  What it adds up is what the results
      of the whole join are made of. */
  method RunTasks(k: Kernel, ts: seq<Task>, Rm: seq<Tuple>, Sm: seq<Tuple>, bits: nat) returns (acc: Totals)
    requires forall i: nat :: i < |ts| ==> TaskSuits(k, ts[i], Rm, Sm, bits)
    ensures acc == ThreadTotals(ts, Rm, Sm)
  {
    acc := ZERO;
    for idx := 0 to |ts|
      invariant acc == ThreadTotals(ts[..idx], Rm, Sm)
    {
      var t := ts[idx];
      var got := RunKernel(k, Slice(Rm, t.rAt, t.rNum), Slice(Sm, t.sAt, t.sNum), bits);
      acc := AddTotals(acc, got);
      assert ts[..idx + 1][..idx] == ts[..idx];
    }
    assert ts[..|ts|] == ts;
  }
}
