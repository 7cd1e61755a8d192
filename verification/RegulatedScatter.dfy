/** The bandwidth-regulated first pass without buffers: writers serve whole chunks, one after the
    other, on behalf of their owners. */
module RegulatedScatter {
  import opened Bits
  import opened Relations
  import opened Runs
  import opened Partitioning
  import opened ConcurrentScatter
  import Swwcb
  import RegulatedPass
  import SwwcbProofs

  /** The chunk that each writer serves, or past the last one. */
  datatype Regulated = Regulated(s: State, at: seq<nat>)

  ghost predicate RegInit(plan: Plan, writers: nat, x: Regulated) {
    Init(plan, x.s) && |x.at| == writers && forall v: nat :: v < writers ==> x.at[v] == v
  }

  ghost predicate RegStep(plan: Plan, writers: nat, x: Regulated, x': Regulated, v: nat) {
    && v < |x.at| && x.at[v] < |plan.c.inputs|
    && if WriterDone(plan, x.s, x.at[v]) then x' == x.(at := x.at[v := x.at[v] + writers])
       else x'.at == x.at && Step(plan, x.s, x'.s, x.at[v])
  }

  ghost predicate RegNext(plan: Plan, writers: nat, x: Regulated, x': Regulated) {
    exists v: nat :: RegStep(plan, writers, x, x', v)
  }

  /** A writer is past a chunk only when the chunk is done. */
  ghost predicate Served(plan: Plan, writers: nat, x: Regulated, k: nat)
    requires 0 < writers <= |x.at|
  {
    k < x.at[RegulatedPass.WriterOf(k, writers)] ==> WriterDone(plan, x.s, k)
  }

  ghost predicate RegInv(plan: Plan, writers: nat, x: Regulated) {
    && 0 < writers == |x.at| && |x.s.ts| == |plan.c.inputs|
    && (forall v: nat :: v < writers ==> RegulatedPass.WriterOf(x.at[v], writers) == v)
    && (forall k: nat :: k < |plan.c.inputs| ==> Served(plan, writers, x, k))
  }

  lemma InitHasRegInv(plan: Plan, writers: nat, x: Regulated)
    requires 0 < writers && RegInit(plan, writers, x)
    ensures RegInv(plan, writers, x)
  {
    forall k: nat | k < |plan.c.inputs|
      ensures Served(plan, writers, x, k)
    {
      assert RegulatedPass.WriterOf(k, writers) <= k;
    }
  }

  lemma StepKeepsRegInv(plan: Plan, writers: nat, x: Regulated, x': Regulated, v: nat)
    requires RegInv(plan, writers, x) && RegStep(plan, writers, x, x', v)
    ensures RegInv(plan, writers, x')
    ensures x'.s == x.s || Next(plan, x.s, x'.s)
  {
    var n := x.at[v];
    RegulatedPass.NextChunk(n, writers);
    forall k: nat | k < |plan.c.inputs|
      ensures Served(plan, writers, x', k)
    {
      assert Served(plan, writers, x, k);
      if RegulatedPass.WriterOf(k, writers) == v && n < k {
        RegulatedPass.SameWriter(n, k, writers);
      }
    }
  }

  ghost predicate RegRun(plan: Plan, writers: nat, rt: seq<Regulated>) {
    IsRun(rt, (x: Regulated) => RegInit(plan, writers, x), (x: Regulated, x': Regulated) => RegNext(plan, writers, x, x'))
  }

  /** Every regulated run is, up to steps that store nothing, a run of the plain pass. */
  lemma {:induction false} RegulatedRefines(plan: Plan, writers: nat, rt: seq<Regulated>, i: nat) returns (tr: seq<State>)
    requires 0 < writers && RegRun(plan, writers, rt) && i < |rt|
    ensures Run(plan, tr) && tr[|tr| - 1] == rt[i].s && tr[0] == rt[0].s && RegInv(plan, writers, rt[i])
  {
    if i == 0 {
      tr := [rt[0].s];
      InitHasRegInv(plan, writers, rt[0]);
    } else {
      tr := RegulatedRefines(plan, writers, rt, i - 1);
      StepOf(rt, (x: Regulated) => RegInit(plan, writers, x), (x: Regulated, x': Regulated) => RegNext(plan, writers, x, x'), i);
      var v: nat :| RegStep(plan, writers, rt[i - 1], rt[i], v);
      StepKeepsRegInv(plan, writers, rt[i - 1], rt[i], v);
      if rt[i].s != rt[i - 1].s {
        OneMore(tr, (s: State) => Init(plan, s), (s: State, s': State) => Next(plan, s, s'), rt[i].s);
        tr := tr + [rt[i].s];
      }
    }
  }

  ghost predicate AllServed(plan: Plan, x: Regulated) {
    forall v: nat :: v < |x.at| ==> x.at[v] >= |plan.c.inputs|
  }

  lemma ServedMeansDone(plan: Plan, writers: nat, x: Regulated)
    requires RegInv(plan, writers, x) && AllServed(plan, x)
    ensures AllDone(plan, x.s)
  {
    forall k: nat | k < |x.s.ts|
      ensures WriterDone(plan, x.s, k)
    {
      assert Served(plan, writers, x, k);
    }
  }

  /** When all writers are past the last chunk, every chunk is where its owner would have put it, and
      its offsets are back at its first slots. */
  lemma ServedChunksHold(plan: Plan, writers: nat, rt: seq<Regulated>)
    requires 0 < writers && Enough(plan) && RegRun(plan, writers, rt) && AllServed(plan, rt[|rt| - 1])
    ensures CellsHold(plan.c, rt[|rt| - 1].s.mem) && KeepsRest(plan, rt[0].s.mem, rt[|rt| - 1].s)
  {
    var tr := RegulatedRefines(plan, writers, rt, |rt| - 1);
    ServedMeansDone(plan, writers, rt[|rt| - 1]);
    ScatterCellsHold(plan, tr);
    OthersUntouched(plan, tr, |tr| - 1);
  }

  /** The run of the plain pass that a finished regulated run is. */
  lemma FinishedRun(plan: Plan, writers: nat, rt: seq<Regulated>) returns (tr: seq<State>)
    requires 0 < writers && RegRun(plan, writers, rt) && AllServed(plan, rt[|rt| - 1])
    ensures Run(plan, tr) && tr[|tr| - 1] == rt[|rt| - 1].s && AllDone(plan, tr[|tr| - 1])
  {
    tr := RegulatedRefines(plan, writers, rt, |rt| - 1);
    ServedMeansDone(plan, writers, rt[|rt| - 1]);
  }

  /** The relation is partitioned and the offsets of every chunk are back at its first slots: as if
      every thread had served its own chunk. */
  lemma RegulatedScatterPartitions(t: nat, r: Radix, chunks: seq<seq<Tuple>>, base: nat, pad: nat, size: nat,
                                   writers: nat, rt: seq<Regulated>, k: nat, p: nat)
    requires 0 < t && 0 < writers && Fits(Flatten(chunks), r, base, pad, size) && k < |chunks| && p < r.fanout
    requires RegRun(Plan(ParallelPass(t, r, chunks, base, pad, size), pad, true), writers, rt)
    requires AllServed(Plan(ParallelPass(t, r, chunks, base, pad, size), pad, true), rt[|rt| - 1])
    ensures Partitioned(rt[|rt| - 1].s.mem, Flatten(chunks), r, base, pad)
    ensures |rt[|rt| - 1].s.ts| == |chunks| && |rt[|rt| - 1].s.ts[k].off| == r.fanout
    ensures rt[|rt| - 1].s.ts[k].off[p] == Seat(chunks, r, base, pad, k, p)
  {
    var plan := Plan(ParallelPass(t, r, chunks, base, pad, size), pad, true);
    var tr := FinishedRun(plan, writers, rt);
    ScatterPartitions(t, r, chunks, base, pad, size, true, tr);
    SeatsAreBack(t, r, chunks, base, pad, size, tr, k, p);
  }

  lemma SeatsAreBack(t: nat, r: Radix, chunks: seq<seq<Tuple>>, base: nat, pad: nat, size: nat, tr: seq<State>, k: nat, p: nat)
    requires 0 < t && Fits(Flatten(chunks), r, base, pad, size) && k < |chunks| && p < r.fanout
    requires Run(Plan(ParallelPass(t, r, chunks, base, pad, size), pad, true), tr)
    requires AllDone(Plan(ParallelPass(t, r, chunks, base, pad, size), pad, true), tr[|tr| - 1])
    ensures |tr[|tr| - 1].ts| == |chunks| && |tr[|tr| - 1].ts[k].off| == r.fanout
    ensures tr[|tr| - 1].ts[k].off[p] == Seat(chunks, r, base, pad, k, p)
  {
    var plan := Plan(ParallelPass(t, r, chunks, base, pad, size), pad, true);
    ParallelEnough(t, r, chunks, base, pad, size, true);
    OffsetsAreBack(plan, tr, k, p);
  }

  lemma OffsetsAreBack(plan: Plan, tr: seq<State>, k: nat, p: nat)
    requires Enough(plan) && plan.back && Run(plan, tr) && AllDone(plan, tr[|tr| - 1]) && k < |plan.c.inputs| && p < plan.c.radix.fanout
    ensures |tr[|tr| - 1].ts| == |plan.c.inputs| && |tr[|tr| - 1].ts[k].off| == plan.c.radix.fanout
    ensures tr[|tr| - 1].ts[k].off[p] == plan.c.start[k][p]
  {
    assert Swwcb.Cell(plan.c, k, p);
    ScatterIsExact(plan, tr, k, p);
  }

  // ----- who serves a chunk -----

  /** Only one writer ever touches a chunk: the one whose number is the remainder of the chunk's. */
  lemma OnlyItsWriterServes(plan: Plan, writers: nat, rt: seq<Regulated>, i: nat, v: nat, k: nat)
    requires 0 < writers && RegRun(plan, writers, rt) && i + 1 < |rt| && RegStep(plan, writers, rt[i], rt[i + 1], v)
    requires k < |rt[i].s.ts| == |rt[i + 1].s.ts| && rt[i + 1].s.ts[k] != rt[i].s.ts[k]
    ensures v < writers && v == k % writers
  {
    var tr := RegulatedRefines(plan, writers, rt, i);
    OffIsRemainder(k, writers);
  }

  // ----- no deadlock, and every run ends -----

  /** Until all writers are past the last chunk, every writer that is not can take a step. */
  lemma NeverStuck(plan: Plan, writers: nat, rt: seq<Regulated>, i: nat, v: nat)
    requires Enough(plan) && 0 < writers && RegRun(plan, writers, rt) && i < |rt|
    requires v < |rt[i].at| && rt[i].at[v] < |plan.c.inputs|
    ensures exists x' :: RegStep(plan, writers, rt[i], x', v)
  {
    var x := rt[i];
    var tr := RegulatedRefines(plan, writers, rt, i);
    RunHasInv(plan, tr, |tr| - 1);
    if WriterDone(plan, x.s, x.at[v]) {
      assert RegStep(plan, writers, x, x.(at := x.at[v := x.at[v] + writers]), v);
    } else {
      ConcurrentScatter.NeverStuck(plan, x.s, x.at[v]);
      var s' :| Step(plan, x.s, s', x.at[v]);
      assert RegStep(plan, writers, x, Regulated(s', x.at), v);
    }
  }

  function ChunksLeftOf(n: nat, at: seq<nat>): nat -> nat {
    (v: nat) => if v < |at| then SwwcbProofs.Rest(n, at[v]) else 0
  }

  function TotalLeft(plan: Plan, writers: nat, x: Regulated): nat {
    Work(plan, x.s.ts) + SumTo(ChunksLeftOf(|plan.c.inputs|, x.at), writers)
  }

  lemma MoveUsesOneUp(n: nat, at: seq<nat>, v: nat, k: nat)
    requires v < |at| && at[v] < n && at[v] < k
    ensures SumTo(ChunksLeftOf(n, at[v := k]), |at|) < SumTo(ChunksLeftOf(n, at), |at|)
  {
    SumToDrops(ChunksLeftOf(n, at), ChunksLeftOf(n, at[v := k]), v, |at|);
  }

  lemma RegUsesOneUp(plan: Plan, writers: nat, x: Regulated, x': Regulated, v: nat)
    requires RegInv(plan, writers, x) && RegStep(plan, writers, x, x', v)
    ensures TotalLeft(plan, writers, x') < TotalLeft(plan, writers, x)
  {
    if WriterDone(plan, x.s, x.at[v]) {
      MoveUsesOneUp(|plan.c.inputs|, x.at, v, x'.at[v]);
    } else {
      StepUsesOneUp(plan, x.s, x'.s, x.at[v]);
    }
  }

  lemma StartWithinBudget(plan: Plan, writers: nat, x: Regulated)
    requires RegInit(plan, writers, x)
    ensures TotalLeft(plan, writers, x) <= SumTo(Budget(plan), |plan.c.inputs|) + Times(writers, |plan.c.inputs|)
  {
    ConcurrentScatter.StartWithinBudget(plan, x.s);
    SumToAtMost(ChunksLeftOf(|plan.c.inputs|, x.at), |plan.c.inputs|, writers);
  }

  /** No run is longer than the tuples, the offsets and the way of every writer through the chunks. */
  lemma RunsEnd(plan: Plan, writers: nat, rt: seq<Regulated>)
    requires 0 < writers && RegRun(plan, writers, rt)
    ensures |rt| - 1 <= SumTo(Budget(plan), |plan.c.inputs|) + Times(writers, |plan.c.inputs|)
  {
    forall x | RegInit(plan, writers, x)
      ensures RegInv(plan, writers, x)
    {
      InitHasRegInv(plan, writers, x);
    }
    forall x, x' | RegInv(plan, writers, x) && RegNext(plan, writers, x, x')
      ensures RegInv(plan, writers, x') && TotalLeft(plan, writers, x') < TotalLeft(plan, writers, x)
    {
      var v: nat :| RegStep(plan, writers, x, x', v);
      StepKeepsRegInv(plan, writers, x, x', v);
      RegUsesOneUp(plan, writers, x, x', v);
    }
    Bounded(rt, (x: Regulated) => RegInit(plan, writers, x), (x: Regulated, x': Regulated) => RegNext(plan, writers, x, x'),
            (x: Regulated) => RegInv(plan, writers, x), (x: Regulated) => TotalLeft(plan, writers, x), |rt| - 1);
    StartWithinBudget(plan, writers, rt[0]);
  }
}
