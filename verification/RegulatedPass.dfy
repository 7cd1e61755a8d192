/** The bandwidth-regulated first pass: only the first `writers` threads write.  Writer w serves its
    own chunk and the chunks w + writers, w + 2 * writers, and so on, with the buffers that the owner
    of the chunk has set up; all writers meet at a barrier before the remainders are drained. */
module RegulatedPass {
  import opened Bits
  import opened Relations
  import opened Runs
  import opened Swwcb
  import opened SwwcbProofs
  import opened Partitioning

  datatype Job =
    | Scattering(k: nat)     // serving chunk k, or past the last chunk
    | AtBarrier
    | Draining(k: nat)
    | Finished

  datatype Regulated = Regulated(s: State, jobs: seq<Job>)

  ghost predicate RegInit(c: Config, writers: nat, x: Regulated) {
    && Init(c, x.s) && |x.jobs| == writers
    && forall v: nat :: v < writers ==> x.jobs[v] == Scattering(v)
  }

  /** A step of the writer on behalf of chunk `k`. */
  ghost predicate Serve(c: Config, x: Regulated, x': Regulated, k: nat) {
    && Shape(c) && StateShape(c, x.s) && k < |x.s.ws| && Safe(c, x.s, k)
    && x' == Regulated(Step(c, x.s, k), x.jobs)
  }

  ghost predicate Scattered(c: Config, s: State, k: nat) {
    k < |s.ws| == |c.inputs| && s.ws[k].pc == Scatter(|c.inputs[k]|)
  }

  ghost predicate Past(j: Job) { !j.Scattering? }

  ghost predicate RegStep(c: Config, writers: nat, x: Regulated, x': Regulated, v: nat) {
    && v < |x.jobs| && Shape(c) && StateShape(c, x.s)
    && match x.jobs[v]
       case Scattering(k) =>
         if k >= |c.inputs| then x' == x.(jobs := x.jobs[v := AtBarrier])
         else if Scattered(c, x.s, k) then x' == x.(jobs := x.jobs[v := Scattering(k + writers)])
         else Serve(c, x, x', k)
       case AtBarrier =>
         && (forall u: nat :: u < |x.jobs| ==> Past(x.jobs[u]))
         && x' == x.(jobs := x.jobs[v := Draining(v)])
       case Draining(k) =>
         if k >= |c.inputs| then x' == x.(jobs := x.jobs[v := Finished])
         else if x.s.ws[k].pc == Done then x' == x.(jobs := x.jobs[v := Draining(k + writers)])
         else Serve(c, x, x', k)
       case Finished => false
  }

  ghost predicate RegNext(c: Config, writers: nat, x: Regulated, x': Regulated) {
    exists v: nat :: RegStep(c, writers, x, x', v)
  }

  // ----- every chunk has one writer -----

  function WriterOf(k: nat, writers: nat): (v: nat)
    requires 0 < writers
    ensures v < writers
  {
    Off(k, writers)
  }

  /** The chunks of a writer are `writers` apart. */
  lemma {:induction false} SameWriter(k: nat, k': nat, writers: nat)
    requires 0 < writers && k < k' && WriterOf(k, writers) == WriterOf(k', writers)
    ensures k + writers <= k'
  {
    if k >= writers {
      SameWriter(k - writers, k' - writers, writers);
    }
  }

  lemma NextChunk(k: nat, writers: nat)
    requires 0 < writers
    ensures WriterOf(k + writers, writers) == WriterOf(k, writers)
  {
  }

  // ----- the invariant -----

  /** Where a chunk must be, from what its writer is doing. */
  ghost predicate ChunkOk(c: Config, s: State, j: Job, k: nat)
    requires k < |s.ws| == |c.inputs|
  {
    match j
    case Scattering(n) =>
      if k < n then s.ws[k].pc == Scatter(|c.inputs[k]|)
      else if k == n then s.ws[k].pc.Scatter? || s.ws[k].pc.Flush?
      else s.ws[k].pc == Scatter(0)
    case AtBarrier => s.ws[k].pc == Scatter(|c.inputs[k]|)
    case Draining(n) =>
      if k < n then s.ws[k].pc == Done
      else if k == n then s.ws[k].pc == Scatter(|c.inputs[k]|) || s.ws[k].pc.Drain? || s.ws[k].pc == Done
      else s.ws[k].pc == Scatter(|c.inputs[k]|)
    case Finished => s.ws[k].pc == Done
  }

  ghost predicate JobOk(writers: nat, v: nat, j: Job)
    requires 0 < writers
  {
    match j
    case Scattering(n) => WriterOf(n, writers) == v
    case Draining(n) => WriterOf(n, writers) == v
    case _ => true
  }

  ghost predicate RegInv(c: Config, writers: nat, x: Regulated) {
    && Shape(c) && |x.s.ws| == |c.inputs| && |x.jobs| == writers && 0 < writers
    && (forall v: nat :: v < writers ==> JobOk(writers, v, x.jobs[v]))
    && (forall k: nat :: k < |c.inputs| ==> ChunkOk(c, x.s, x.jobs[WriterOf(k, writers)], k))
    && (forall v: nat, u: nat :: v < writers && u < writers && (x.jobs[v].Draining? || x.jobs[v].Finished?) ==> Past(x.jobs[u]))
  }

  lemma InitHasRegInv(c: Config, writers: nat, x: Regulated)
    requires 0 < writers && RegInit(c, writers, x) && c.radix.fanout > 0
    ensures RegInv(c, writers, x)
  {
    forall v: nat | v < writers
      ensures JobOk(writers, v, x.jobs[v])
    {
    }
    forall k: nat | k < |c.inputs|
      ensures ChunkOk(c, x.s, x.jobs[WriterOf(k, writers)], k)
    {
      assert Cell(c, k, 0);
    }
  }

  /** What a served chunk does next. */
  lemma ServedPc(c: Config, s: State, k: nat)
    requires Shape(c) && StateShape(c, s) && k < |s.ws|
    ensures var pc, pc' := s.ws[k].pc, Act(c, k, s.ws[k]).0.pc;
      && ((pc.Scatter? && pc.i < |c.inputs[k]|) || pc.Flush? ==> pc'.Scatter? || pc'.Flush?)
      && (pc == Scatter(|c.inputs[k]|) || pc.Drain? ==> pc'.Drain? || pc' == Done)
  {
  }

  ghost predicate Serving(c: Config, x: Regulated, v: nat, k: nat)
    requires v < |x.jobs| && k < |x.s.ws|
  {
    || (x.jobs[v] == Scattering(k) && !Scattered(c, x.s, k))
    || (x.jobs[v] == Draining(k) && x.s.ws[k].pc != Done)
  }

  /** Serving a chunk is a step of the unregulated machine: in particular, when the first chunk is
      drained, all chunks are scattered, because every chunk has a writer and all writers are past
      the barrier. */
  lemma ServeRefines(c: Config, writers: nat, x: Regulated, x': Regulated, v: nat, k: nat)
    requires RegInv(c, writers, x) && v < writers && Serve(c, x, x', k)
    requires k < |c.inputs| && Serving(c, x, v, k)
    ensures Next(c, x.s, x'.s)
  {
    assert ChunkOk(c, x.s, x.jobs[WriterOf(k, writers)], k) && JobOk(writers, v, x.jobs[v]);
    if x.s.ws[k].pc == Scatter(|c.inputs[k]|) {
      forall k': nat | k' < |x.s.ws|
        ensures Arrived(c, k', x.s.ws[k'].pc)
      {
        assert ChunkOk(c, x.s, x.jobs[WriterOf(k', writers)], k');
      }
    }
    assert Enabled(c, x.s, k);
  }

  lemma ServeKeepsChunk(c: Config, writers: nat, x: Regulated, x': Regulated, v: nat, k: nat, k': nat)
    requires RegInv(c, writers, x) && v < writers && Serve(c, x, x', k) && k < |c.inputs| && k' < |c.inputs|
    requires Serving(c, x, v, k)
    ensures ChunkOk(c, x'.s, x'.jobs[WriterOf(k', writers)], k')
  {
    assert ChunkOk(c, x.s, x.jobs[WriterOf(k', writers)], k') && ChunkOk(c, x.s, x.jobs[WriterOf(k, writers)], k);
    assert JobOk(writers, v, x.jobs[v]);
    ServedPc(c, x.s, k);
    assert WriterShape(c, k, x.s.ws[k]);
  }

  /** A writer that moves on leaves every chunk as it must be. */
  lemma MoveKeepsChunk(c: Config, writers: nat, x: Regulated, v: nat, j: Job, k': nat)
    requires RegInv(c, writers, x) && v < writers && k' < |c.inputs|
    requires match x.jobs[v]
             case Scattering(k) => (k >= |c.inputs| && j == AtBarrier) || (k < |c.inputs| && Scattered(c, x.s, k) && j == Scattering(k + writers))
             case AtBarrier => j == Draining(v)
             case Draining(k) => (k >= |c.inputs| && j == Finished) || (k < |c.inputs| && x.s.ws[k].pc == Done && j == Draining(k + writers))
             case Finished => false
    ensures ChunkOk(c, x.s, x.jobs[v := j][WriterOf(k', writers)], k')
    ensures JobOk(writers, v, j)
  {
    assert ChunkOk(c, x.s, x.jobs[WriterOf(k', writers)], k') && JobOk(writers, v, x.jobs[v]);
    if WriterOf(k', writers) == v && (x.jobs[v].Scattering? || x.jobs[v].Draining?) {
      var k := x.jobs[v].k;
      NextChunk(k, writers);
      if k < k' {
        SameWriter(k, k', writers);
      }
    }
    if x.jobs[v].AtBarrier? && WriterOf(k', writers) == v && k' < v {
      FirstChunk(k', v, writers);
    }
  }

  /** The first chunk of a writer is its own. */
  lemma FirstChunk(k: nat, v: nat, writers: nat)
    requires 0 < writers && k < v < writers
    ensures WriterOf(k, writers) != v
  {
  }

  lemma StepKeepsRegInv(c: Config, writers: nat, x: Regulated, x': Regulated, v: nat)
    requires RegInv(c, writers, x) && RegStep(c, writers, x, x', v)
    ensures RegInv(c, writers, x')
    ensures x'.s == x.s || Next(c, x.s, x'.s)
  {
    assert JobOk(writers, v, x.jobs[v]);
    if x'.jobs == x.jobs {
      var k := x.jobs[v].k;
      ServeRefines(c, writers, x, x', v, k);
      forall k': nat | k' < |c.inputs|
        ensures ChunkOk(c, x'.s, x'.jobs[WriterOf(k', writers)], k')
      {
        ServeKeepsChunk(c, writers, x, x', v, k, k');
      }
    } else {
      forall k': nat | k' < |c.inputs|
        ensures ChunkOk(c, x'.s, x'.jobs[WriterOf(k', writers)], k')
      {
        MoveKeepsChunk(c, writers, x, v, x'.jobs[v], k');
      }
    }
  }

  // ----- runs -----

  ghost predicate RegRun(c: Config, writers: nat, rt: seq<Regulated>)
    requires Shape(c)
  {
    IsRun(rt, (x: Regulated) => RegInit(c, writers, x), (x: Regulated, x': Regulated) => RegNext(c, writers, x, x'))
  }

  ghost predicate AllFinished(x: Regulated) {
    forall v: nat :: v < |x.jobs| ==> x.jobs[v].Finished?
  }

  /** Every regulated run is, up to steps that store nothing, a run of the unregulated machine. */
  lemma {:induction false} RegulatedRefines(c: Config, writers: nat, rt: seq<Regulated>, i: nat) returns (tr: seq<State>)
    requires Valid(c) && 0 < writers && RegRun(c, writers, rt) && i < |rt|
    ensures Run(c, tr) && tr[|tr| - 1] == rt[i].s && tr[0] == rt[0].s && RegInv(c, writers, rt[i])
  {
    if i == 0 {
      tr := [rt[0].s];
      InitHasRegInv(c, writers, rt[0]);
    } else {
      tr := RegulatedRefines(c, writers, rt, i - 1);
      StepOf(rt, (x: Regulated) => RegInit(c, writers, x), (x: Regulated, x': Regulated) => RegNext(c, writers, x, x'), i);
      var v: nat :| RegStep(c, writers, rt[i - 1], rt[i], v);
      StepKeepsRegInv(c, writers, rt[i - 1], rt[i], v);
      if rt[i].s != rt[i - 1].s {
        OneMore(tr, (s: State) => Init(c, s), (s: State, s': State) => Next(c, s, s'), rt[i].s);
        tr := tr + [rt[i].s];
      }
    }
  }

  lemma FinishedMeansDone(c: Config, writers: nat, x: Regulated)
    requires RegInv(c, writers, x) && AllFinished(x)
    ensures AllDone(x.s)
  {
    forall k: nat | k < |x.s.ws|
      ensures x.s.ws[k].pc.Done?
    {
      assert ChunkOk(c, x.s, x.jobs[WriterOf(k, writers)], k);
    }
  }

  /** When all writers have finished, every range holds its tuples, and the rest of the array is as
      it was. */
  lemma FinishedCellsHold(c: Config, writers: nat, rt: seq<Regulated>)
    requires Valid(c) && 0 < writers && RegRun(c, writers, rt) && AllFinished(rt[|rt| - 1])
    ensures CellsHold(c, rt[|rt| - 1].s.mem) && KeepsRest(c, rt[0].s.mem, rt[|rt| - 1].s)
  {
    var tr := RegulatedRefines(c, writers, rt, |rt| - 1);
    FinishedMeansDone(c, writers, rt[|rt| - 1]);
    BufferedCellsHold(c, tr);
    OthersUntouched(c, tr, |tr| - 1);
  }

  /** For any number of writers and any schedule, the regulated pass leaves what the unregulated one
      leaves: the relation partitioned, every chunk served exactly once. */
  lemma RegulatedPassPartitions(t: nat, r: Radix, chunks: seq<seq<Tuple>>, base: nat, pad: nat, size: nat, writers: nat, rt: seq<Regulated>)
    requires 0 < t && 0 < writers && Fits(Flatten(chunks), r, base, pad, size) && chunks != []
    requires Shape(ParallelPass(t, r, chunks, base, pad, size))
    requires RegRun(ParallelPass(t, r, chunks, base, pad, size), writers, rt) && AllFinished(rt[|rt| - 1])
    ensures Partitioned(rt[|rt| - 1].s.mem, Flatten(chunks), r, base, pad)
  {
    ParallelPassValid(t, r, chunks, base, pad, size);
    FinishedCellsHold(ParallelPass(t, r, chunks, base, pad, size), writers, rt);
    ParallelCells(t, r, chunks, base, pad, size, rt[|rt| - 1].s.mem);
  }

  // ----- who serves a chunk -----

  /** Only one writer ever touches a chunk: the one whose number is the remainder of the chunk's. */
  lemma OnlyItsWriterServes(c: Config, writers: nat, rt: seq<Regulated>, i: nat, v: nat, k: nat)
    requires Valid(c) && 0 < writers && RegRun(c, writers, rt) && i + 1 < |rt| && RegStep(c, writers, rt[i], rt[i + 1], v)
    requires k < |rt[i].s.ws| == |rt[i + 1].s.ws| && rt[i + 1].s.ws[k] != rt[i].s.ws[k]
    ensures v < writers && v == k % writers
  {
    var tr := RegulatedRefines(c, writers, rt, i);
    assert JobOk(writers, v, rt[i].jobs[v]);
    OffIsRemainder(k, writers);
  }

  // ----- no deadlock -----

  lemma ServeGoesOn(c: Config, x: Regulated, k: nat)
    requires SwwcbProofs.Inv(c, x.s) && k < |x.s.ws|
    ensures exists x' :: Serve(c, x, x', k)
  {
    StoreSafe(c, x.s, k);
    assert Serve(c, x, Regulated(Step(c, x.s, k), x.jobs), k);
  }

  lemma WriterGoesOn(c: Config, writers: nat, x: Regulated, v: nat)
    requires RegInv(c, writers, x) && SwwcbProofs.Inv(c, x.s) && v < writers && !x.jobs[v].Finished?
    requires StateShape(c, x.s) && (x.jobs[v].AtBarrier? ==> forall u: nat :: u < |x.jobs| ==> Past(x.jobs[u]))
    ensures exists x' :: RegStep(c, writers, x, x', v)
  {
    match x.jobs[v] {
      case Scattering(k) =>
        if k >= |c.inputs| {
          assert RegStep(c, writers, x, x.(jobs := x.jobs[v := AtBarrier]), v);
        } else if Scattered(c, x.s, k) {
          assert RegStep(c, writers, x, x.(jobs := x.jobs[v := Scattering(k + writers)]), v);
        } else {
          ServeGoesOn(c, x, k);
          var x' :| Serve(c, x, x', k);
          assert RegStep(c, writers, x, x', v);
        }
      case AtBarrier =>
        assert RegStep(c, writers, x, x.(jobs := x.jobs[v := Draining(v)]), v);
      case Draining(k) =>
        if k >= |c.inputs| {
          assert RegStep(c, writers, x, x.(jobs := x.jobs[v := Finished]), v);
        } else if x.s.ws[k].pc == Done {
          assert RegStep(c, writers, x, x.(jobs := x.jobs[v := Draining(k + writers)]), v);
        } else {
          ServeGoesOn(c, x, k);
          var x' :| Serve(c, x, x', k);
          assert RegStep(c, writers, x, x', v);
        }
    }
  }

  /** Until all writers have finished, one of them can take a step. */
  lemma NeverStuck(c: Config, writers: nat, rt: seq<Regulated>, i: nat)
    requires Valid(c) && 0 < writers && RegRun(c, writers, rt) && i < |rt| && !AllFinished(rt[i])
    ensures exists x' :: RegNext(c, writers, rt[i], x')
  {
    var x := rt[i];
    var tr := RegulatedRefines(c, writers, rt, i);
    RunHasInv(c, tr, |tr| - 1);
    if |x.s.ws| > 0 {
      NoStoreOutside(c, tr, |tr| - 1, 0);
    }
    var v: nat :| v < |x.jobs| && !x.jobs[v].Finished?;
    if x.jobs[v].AtBarrier? && exists u: nat :: u < |x.jobs| && !Past(x.jobs[u]) {
      var u: nat :| u < |x.jobs| && !Past(x.jobs[u]);
      WriterGoesOn(c, writers, x, u);
      var x' :| RegStep(c, writers, x, x', u);
      assert RegNext(c, writers, x, x');
    } else {
      WriterGoesOn(c, writers, x, v);
      var x' :| RegStep(c, writers, x, x', v);
      assert RegNext(c, writers, x, x');
    }
  }

  // ----- every run ends -----

  /** How many chunks a writer can still go through, and the barrier. */
  function JobLeft(n: nat, j: Job): nat {
    match j
    case Scattering(k) => Rest(n, k) + n + 3
    case AtBarrier => n + 2
    case Draining(k) => Rest(n, k) + 1
    case Finished => 0
  }

  function JobsLeftOf(n: nat, jobs: seq<Job>): nat -> nat {
    (v: nat) => if v < |jobs| then JobLeft(n, jobs[v]) else 0
  }

  function TotalLeft(c: Config, writers: nat, x: Regulated): nat {
    Work(c, x.s.ws) + SumTo(JobsLeftOf(|c.inputs|, x.jobs), writers)
  }

  lemma MoveUsesOneUp(n: nat, jobs: seq<Job>, v: nat, j: Job)
    requires v < |jobs| && JobLeft(n, j) < JobLeft(n, jobs[v])
    ensures SumTo(JobsLeftOf(n, jobs[v := j]), |jobs|) < SumTo(JobsLeftOf(n, jobs), |jobs|)
  {
    SumToDrops(JobsLeftOf(n, jobs), JobsLeftOf(n, jobs[v := j]), v, |jobs|);
  }

  lemma RegUsesOneUp(c: Config, writers: nat, x: Regulated, x': Regulated, v: nat)
    requires RegInv(c, writers, x) && SwwcbProofs.Inv(c, x.s) && RegStep(c, writers, x, x', v)
    ensures TotalLeft(c, writers, x') < TotalLeft(c, writers, x)
  {
    if x'.jobs == x.jobs {
      ServeRefines(c, writers, x, x', v, x.jobs[v].k);
      NextUsesOneUp(c, x.s, x'.s);
    } else {
      MoveUsesOneUp(|c.inputs|, x.jobs, v, x'.jobs[v]);
    }
  }

  lemma StartWithinBudget(c: Config, writers: nat, x: Regulated)
    requires RegInit(c, writers, x)
    ensures TotalLeft(c, writers, x) <= SumTo(Budget(c), |c.inputs|) + Times(writers, 2 * |c.inputs| + 3)
  {
    SwwcbProofs.StartWithinBudget(c, x.s);
    SumToAtMost(JobsLeftOf(|c.inputs|, x.jobs), 2 * |c.inputs| + 3, writers);
  }

  ghost predicate BothInv(c: Config, writers: nat, x: Regulated) {
    RegInv(c, writers, x) && SwwcbProofs.Inv(c, x.s)
  }

  lemma StepKeepsBoth(c: Config, writers: nat, x: Regulated, x': Regulated, v: nat)
    requires BothInv(c, writers, x) && RegStep(c, writers, x, x', v)
    ensures BothInv(c, writers, x')
  {
    StepKeepsRegInv(c, writers, x, x', v);
    if x'.s != x.s {
      NextKeepsInv(c, x.s, x'.s);
    }
  }

  /** No run is longer than the unregulated work and the way of every writer through the chunks. */
  lemma RunsEnd(c: Config, writers: nat, rt: seq<Regulated>)
    requires Valid(c) && 0 < writers && RegRun(c, writers, rt)
    ensures |rt| - 1 <= SumTo(Budget(c), |c.inputs|) + Times(writers, 2 * |c.inputs| + 3)
  {
    forall x | RegInit(c, writers, x)
      ensures BothInv(c, writers, x)
    {
      InitHasRegInv(c, writers, x);
      InitHasInv(c, x.s);
    }
    forall x, x' | BothInv(c, writers, x) && RegNext(c, writers, x, x')
      ensures BothInv(c, writers, x') && TotalLeft(c, writers, x') < TotalLeft(c, writers, x)
    {
      var v: nat :| RegStep(c, writers, x, x', v);
      StepKeepsBoth(c, writers, x, x', v);
      RegUsesOneUp(c, writers, x, x', v);
    }
    Bounded(rt, (x: Regulated) => RegInit(c, writers, x), (x: Regulated, x': Regulated) => RegNext(c, writers, x, x'),
            (x: Regulated) => BothInv(c, writers, x), (x: Regulated) => TotalLeft(c, writers, x), |rt| - 1);
    StartWithinBudget(c, writers, rt[0]);
  }
}
