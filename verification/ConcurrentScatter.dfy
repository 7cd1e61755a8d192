/** The unbuffered passes under any schedule: writers store their tuples straight into the shared
    array, one by one.  They may be the threads of a parallel pass, each with its chunk, or the tasks
    of a second pass, each partitioned by whichever thread has fetched it. */
module ConcurrentScatter {
  import opened Bits
  import opened Relations
  import opened Runs
  import opened Partitioning
  import opened PlainScatter
  import Swwcb
  import SwwcbProofs

  /** The writers, with the first slots of their ranges; the padding that the code adds to an offset
      on every store; and whether writers move their offsets back in the end, as the threads of a
      parallel pass do. */
  datatype Plan = Plan(c: Swwcb.Config, pad: nat, back: bool)

  /** How many tuples are stored, how many offsets moved back, and the offsets. */
  datatype Thread = Thread(i: nat, back: nat, off: seq<nat>)

  datatype State = State(mem: seq<Tuple>, ts: seq<Thread>)

  /** First slots include the padding of their cluster. */
  ghost predicate Padded(c: Swwcb.Config, pad: nat)
    requires Swwcb.Shape(c)
  {
    forall w: nat, p: nat :: Swwcb.Cell(c, w, p) ==> Times(p, pad) <= c.start[w][p]
  }

  /** Disjoint ranges inside the array, with padding. */
  ghost predicate Enough(x: Plan) {
    Swwcb.Valid(x.c) && Padded(x.c, x.pad)
  }

  function Offset(x: Plan, w: nat, p: nat): nat
    requires w < |x.c.start| && p < |x.c.start[w]|
  {
    if Times(p, x.pad) <= x.c.start[w][p] then x.c.start[w][p] - Times(p, x.pad) else 0
  }

  ghost predicate Init(x: Plan, s: State) {
    && Swwcb.Shape(x.c) && |s.mem| == x.c.size && |s.ts| == |x.c.inputs|
    && forall w: nat :: w < |s.ts| ==>
         && s.ts[w].i == 0 && s.ts[w].back == 0 && |s.ts[w].off| == x.c.radix.fanout
         && forall p: nat :: p < x.c.radix.fanout ==> s.ts[w].off[p] == Offset(x, w, p)
  }

  ghost predicate Put(x: Plan, s: State, s': State, w: nat) {
    && w < |s.ts| == |x.c.inputs| && s.ts[w].i < |x.c.inputs[w]|
    && var th := s.ts[w];
       var h := Swwcb.Target(x.c, w, th.i);
       && h < |th.off| && th.off[h] + Times(h, x.pad) < |s.mem|
       && s' == State(s.mem[th.off[h] + Times(h, x.pad) := x.c.inputs[w][th.i]],
                      s.ts[w := Thread(th.i + 1, th.back, th.off[h := th.off[h] + 1])])
  }

  ghost predicate MoveBack(x: Plan, s: State, s': State, w: nat) {
    && x.back && w < |s.ts| == |x.c.inputs| && s.ts[w].i == |x.c.inputs[w]| && s.ts[w].back < x.c.radix.fanout
    && var th := s.ts[w];
       && th.back < |th.off| && |Swwcb.Mine(x.c, w, th.back)| <= th.off[th.back]
       && s' == State(s.mem, s.ts[w := Thread(th.i, th.back + 1,
            th.off[th.back := th.off[th.back] - |Swwcb.Mine(x.c, w, th.back)| + Times(th.back, x.pad)])])
  }

  ghost predicate Step(x: Plan, s: State, s': State, w: nat) {
    Put(x, s, s', w) || MoveBack(x, s, s', w)
  }

  ghost predicate Next(x: Plan, s: State, s': State) {
    exists w: nat :: Step(x, s, s', w)
  }

  /** What a writer has stored of a cluster. */
  function Stored(x: Plan, w: nat, i: nat, p: nat): seq<Tuple>
    requires w < |x.c.inputs| && i <= |x.c.inputs[w]|
  {
    Sel(x.c.inputs[w][..i], x.c.radix, p)
  }

  ghost predicate CellOk(x: Plan, mem: seq<Tuple>, w: nat, th: Thread, p: nat)
    requires Swwcb.Shape(x.c) && Swwcb.Cell(x.c, w, p) && th.i <= |x.c.inputs[w]| && |th.off| == x.c.radix.fanout
  {
    && th.off[p] + Times(p, x.pad) == x.c.start[w][p] + (if p < th.back then Times(p, x.pad) else |Stored(x, w, th.i, p)|)
    && HoldsAt(mem, x.c.start[w][p], Stored(x, w, th.i, p))
  }

  ghost predicate ThreadOk(x: Plan, mem: seq<Tuple>, w: nat, th: Thread)
    requires Swwcb.Shape(x.c) && w < |x.c.inputs|
  {
    && th.i <= |x.c.inputs[w]| && th.back <= x.c.radix.fanout && |th.off| == x.c.radix.fanout
    && (th.back > 0 ==> th.i == |x.c.inputs[w]|)
    && forall p: nat :: p < x.c.radix.fanout ==> CellOk(x, mem, w, th, p)
  }

  ghost predicate Inv(x: Plan, s: State) {
    && Swwcb.Shape(x.c) && |s.mem| == x.c.size && |s.ts| == |x.c.inputs|
    && forall w: nat :: w < |s.ts| ==> ThreadOk(x, s.mem, w, s.ts[w])
  }

  /** A tuple goes to the next slot of its own writer and cluster. */
  lemma PutSlot(x: Plan, s: State, w: nat)
    requires Enough(x) && Inv(x, s) && w < |s.ts| && s.ts[w].i < |x.c.inputs[w]|
    ensures var th := s.ts[w];
      var h := Swwcb.Target(x.c, w, th.i);
      && |th.off| == x.c.radix.fanout
      && th.off[h] + Times(h, x.pad) == x.c.start[w][h] + |Stored(x, w, th.i, h)| < Swwcb.End(x.c, w, h) <= x.c.size
  {
    var th := s.ts[w];
    var h := Swwcb.Target(x.c, w, th.i);
    assert ThreadOk(x, s.mem, w, th);
    assert CellOk(x, s.mem, w, th, h) && Swwcb.Cell(x.c, w, h);
    SelGrowsTo(x.c.inputs[w], th.i, x.c.radix, h);
  }

  /** The other cells of the same and of other writers are not touched. */
  lemma PutElsewhere(x: Plan, s: State, w: nat, w': nat, p: nat)
    requires Enough(x) && Inv(x, s) && w < |s.ts| && s.ts[w].i < |x.c.inputs[w]| && Swwcb.Cell(x.c, w', p)
    requires w != w' || p != Swwcb.Target(x.c, w, s.ts[w].i)
    ensures var h := Swwcb.Target(x.c, w, s.ts[w].i);
      && s.ts[w'].i <= |x.c.inputs[w']| && |s.ts[w].off| == x.c.radix.fanout && s.ts[w].off[h] + Times(h, x.pad) < |s.mem|
      && HoldsAt(s.mem[s.ts[w].off[h] + Times(h, x.pad) := x.c.inputs[w][s.ts[w].i]],
                 x.c.start[w'][p], Stored(x, w', s.ts[w'].i, p))
  {
    var h := Swwcb.Target(x.c, w, s.ts[w].i);
    PutSlot(x, s, w);
    assert ThreadOk(x, s.mem, w', s.ts[w']);
    assert CellOk(x, s.mem, w', s.ts[w'], p);
    PartIsShort(x.c.inputs[w'], s.ts[w'].i, x.c.radix, p);
    assert Swwcb.Cell(x.c, w, h) && Swwcb.Apart(x.c, w, h, w', p);
    HoldsElsewhere(s.mem, x.c.start[w'][p], Stored(x, w', s.ts[w'].i, p),
                   s.ts[w].off[h] + Times(h, x.pad), x.c.inputs[w][s.ts[w].i]);
  }

  lemma PutKeepsTarget(x: Plan, s: State, s': State, w: nat)
    requires Enough(x) && Inv(x, s) && Put(x, s, s', w)
    ensures var h := Swwcb.Target(x.c, w, s.ts[w].i);
      s'.ts[w].i <= |x.c.inputs[w]| && |s'.ts[w].off| == x.c.radix.fanout && CellOk(x, s'.mem, w, s'.ts[w], h)
  {
    var i := s.ts[w].i;
    var h := Swwcb.Target(x.c, w, i);
    PutSlot(x, s, w);
    assert ThreadOk(x, s.mem, w, s.ts[w]);
    assert CellOk(x, s.mem, w, s.ts[w], h);
    SelGrowsTo(x.c.inputs[w], i, x.c.radix, h);
    HoldsOneMore(s.mem, x.c.start[w][h], Stored(x, w, i, h), x.c.inputs[w][i]);
  }

  lemma PutKeepsCell(x: Plan, s: State, s': State, w: nat, w': nat, p: nat)
    requires Enough(x) && Inv(x, s) && Put(x, s, s', w) && Swwcb.Cell(x.c, w', p)
    ensures s'.ts[w'].i <= |x.c.inputs[w']| && |s'.ts[w'].off| == x.c.radix.fanout && CellOk(x, s'.mem, w', s'.ts[w'], p)
  {
    if w == w' && p == Swwcb.Target(x.c, w, s.ts[w].i) {
      PutKeepsTarget(x, s, s', w);
    } else {
      PutElsewhere(x, s, w, w', p);
      assert ThreadOk(x, s.mem, w', s.ts[w']);
      assert CellOk(x, s.mem, w', s.ts[w'], p);
      SelGrowsTo(x.c.inputs[w], s.ts[w].i, x.c.radix, p);
    }
  }

  lemma PutKeepsThread(x: Plan, s: State, s': State, w: nat, w': nat)
    requires Enough(x) && Inv(x, s) && Put(x, s, s', w) && w' < |s.ts|
    ensures ThreadOk(x, s'.mem, w', s'.ts[w'])
  {
    assert ThreadOk(x, s.mem, w', s.ts[w']) && ThreadOk(x, s.mem, w, s.ts[w]);
    forall p: nat | p < x.c.radix.fanout
      ensures CellOk(x, s'.mem, w', s'.ts[w'], p)
    {
      PutKeepsCell(x, s, s', w, w', p);
    }
  }

  lemma MoveBackKeepsThread(x: Plan, s: State, s': State, w: nat, w': nat)
    requires Enough(x) && Inv(x, s) && MoveBack(x, s, s', w) && w' < |s.ts|
    ensures ThreadOk(x, s'.mem, w', s'.ts[w'])
  {
    assert ThreadOk(x, s.mem, w', s.ts[w']);
    assert x.c.inputs[w][..|x.c.inputs[w]|] == x.c.inputs[w];
    forall p: nat | p < x.c.radix.fanout
      ensures CellOk(x, s'.mem, w', s'.ts[w'], p)
    {
      assert CellOk(x, s.mem, w', s.ts[w'], p);
    }
  }

  lemma NextKeepsInv(x: Plan, s: State, s': State)
    requires Enough(x) && Inv(x, s) && Next(x, s, s')
    ensures Inv(x, s')
  {
    var w: nat :| Step(x, s, s', w);
    forall w': nat | w' < |s'.ts|
      ensures ThreadOk(x, s'.mem, w', s'.ts[w'])
    {
      if Put(x, s, s', w) {
        PutKeepsThread(x, s, s', w, w');
      } else {
        MoveBackKeepsThread(x, s, s', w, w');
      }
    }
  }

  lemma InitHasInv(x: Plan, s: State)
    requires Enough(x) && Init(x, s)
    ensures Inv(x, s)
  {
    forall w: nat | w < |s.ts|
      ensures ThreadOk(x, s.mem, w, s.ts[w])
    {
      forall p: nat | p < x.c.radix.fanout
        ensures CellOk(x, s.mem, w, s.ts[w], p)
      {
        assert Swwcb.Cell(x.c, w, p);
      }
    }
  }

  ghost predicate Run(x: Plan, tr: seq<State>) {
    IsRun(tr, (s: State) => Init(x, s), (s: State, s': State) => Next(x, s, s'))
  }

  ghost predicate WriterDone(x: Plan, s: State, w: nat) {
    w < |s.ts| == |x.c.inputs| && s.ts[w].i == |x.c.inputs[w]| && (x.back ==> s.ts[w].back == x.c.radix.fanout)
  }

  ghost predicate AllDone(x: Plan, s: State) {
    |s.ts| == |x.c.inputs| && forall w: nat :: w < |s.ts| ==> WriterDone(x, s, w)
  }

  lemma RunHasInv(x: Plan, tr: seq<State>, i: nat)
    requires Enough(x) && Run(x, tr) && i < |tr|
    ensures Inv(x, tr[i])
  {
    forall s | Init(x, s)
      ensures Inv(x, s)
    {
      InitHasInv(x, s);
    }
    forall s, s' | Inv(x, s) && Next(x, s, s')
      ensures Inv(x, s')
    {
      NextKeepsInv(x, s, s');
    }
    Invariant(tr, (s: State) => Init(x, s), (s: State, s': State) => Next(x, s, s'), (s: State) => Inv(x, s), i);
  }

  /** Under every schedule each writer's tuples end in its own ranges, and offsets that are moved
      back end at the first slots. */
  lemma ScatterIsExact(x: Plan, tr: seq<State>, w: nat, p: nat)
    requires Enough(x) && Run(x, tr) && AllDone(x, tr[|tr| - 1]) && Swwcb.Cell(x.c, w, p)
    ensures HoldsAt(tr[|tr| - 1].mem, x.c.start[w][p], Swwcb.Mine(x.c, w, p))
    ensures w < |tr[|tr| - 1].ts| && |tr[|tr| - 1].ts[w].off| == x.c.radix.fanout
    ensures x.back ==> tr[|tr| - 1].ts[w].off[p] == x.c.start[w][p]
  {
    var s := tr[|tr| - 1];
    RunHasInv(x, tr, |tr| - 1);
    assert ThreadOk(x, s.mem, w, s.ts[w]) && WriterDone(x, s, w);
    assert CellOk(x, s.mem, w, s.ts[w], p);
    assert x.c.inputs[w][..|x.c.inputs[w]|] == x.c.inputs[w];
  }

  /** Slots outside all ranges keep what they held. */
  ghost predicate KeepsRest(x: Plan, mem: seq<Tuple>, s: State)
    requires Swwcb.Shape(x.c)
  {
    |s.mem| == |mem| == x.c.size && forall q: nat :: q < x.c.size && !SwwcbProofs.Touchable(x.c, q) ==> s.mem[q] == mem[q]
  }

  lemma NextKeepsRest(x: Plan, mem: seq<Tuple>, s: State, s': State)
    requires Enough(x) && Inv(x, s) && Next(x, s, s') && KeepsRest(x, mem, s)
    ensures KeepsRest(x, mem, s')
  {
    var w: nat :| Step(x, s, s', w);
    if Put(x, s, s', w) {
      PutTouches(x, s, w);
    }
  }

  lemma PutTouches(x: Plan, s: State, w: nat)
    requires Enough(x) && Inv(x, s) && w < |s.ts| && s.ts[w].i < |x.c.inputs[w]|
    ensures var h := Swwcb.Target(x.c, w, s.ts[w].i);
      h < |s.ts[w].off| && SwwcbProofs.Touchable(x.c, s.ts[w].off[h] + Times(h, x.pad))
  {
    var h := Swwcb.Target(x.c, w, s.ts[w].i);
    PutSlot(x, s, w);
    assert Swwcb.Cell(x.c, w, h) && Swwcb.Mine(x.c, w, h) != [];
  }

  lemma OthersUntouched(x: Plan, tr: seq<State>, i: nat)
    requires Enough(x) && Run(x, tr) && i < |tr|
    ensures KeepsRest(x, tr[0].mem, tr[i])
  {
    var mem := tr[0].mem;
    forall s | Init(x, s)
      ensures Inv(x, s)
    {
      InitHasInv(x, s);
    }
    forall s, s' | Inv(x, s) && KeepsRest(x, mem, s) && Next(x, s, s')
      ensures Inv(x, s') && KeepsRest(x, mem, s')
    {
      NextKeepsInv(x, s, s');
      NextKeepsRest(x, mem, s, s');
    }
    Invariant(tr, (s: State) => Init(x, s) && s.mem == mem, (s: State, s': State) => Next(x, s, s'),
              (s: State) => Inv(x, s) && KeepsRest(x, mem, s), i);
  }

  /** A writer that is not done can always take a step, whatever the others do. */
  lemma NeverStuck(x: Plan, s: State, w: nat)
    requires Enough(x) && Inv(x, s) && w < |s.ts| && !WriterDone(x, s, w)
    ensures exists s' :: Step(x, s, s', w)
  {
    var th := s.ts[w];
    assert ThreadOk(x, s.mem, w, th);
    if th.i < |x.c.inputs[w]| {
      var h := Swwcb.Target(x.c, w, th.i);
      PutSlot(x, s, w);
      assert Put(x, s, State(s.mem[th.off[h] + Times(h, x.pad) := x.c.inputs[w][th.i]],
                             s.ts[w := Thread(th.i + 1, th.back, th.off[h := th.off[h] + 1])]), w);
      assert Step(x, s, State(s.mem[th.off[h] + Times(h, x.pad) := x.c.inputs[w][th.i]],
                             s.ts[w := Thread(th.i + 1, th.back, th.off[h := th.off[h] + 1])]), w);
    } else {
      var p := th.back;
      assert CellOk(x, s.mem, w, th, p) && Swwcb.Cell(x.c, w, p);
      assert x.c.inputs[w][..|x.c.inputs[w]|] == x.c.inputs[w];
      assert MoveBack(x, s, State(s.mem, s.ts[w := Thread(th.i, p + 1,
        th.off[p := th.off[p] - |Swwcb.Mine(x.c, w, p)| + Times(p, x.pad)])]), w);
      assert Step(x, s, State(s.mem, s.ts[w := Thread(th.i, p + 1,
        th.off[p := th.off[p] - |Swwcb.Mine(x.c, w, p)| + Times(p, x.pad)])]), w);
    }
  }

  // ----- the passes -----

  lemma ParallelEnough(t: nat, r: Radix, chunks: seq<seq<Tuple>>, base: nat, pad: nat, size: nat, back: bool)
    requires 0 < t && Fits(Flatten(chunks), r, base, pad, size)
    ensures Enough(Plan(ParallelPass(t, r, chunks, base, pad, size), pad, back))
  {
    ParallelPassValid(t, r, chunks, base, pad, size);
  }

  lemma SerialEnough(t: nat, r: Radix, jobs: seq<Job>, size: nat)
    requires 0 < t && Spaced(jobs, t, r, size)
    ensures Enough(Plan(SerialPasses(t, r, jobs, size), t, false))
  {
    SerialPassesValid(t, r, jobs, size);
  }

  lemma ScatterCellsHold(x: Plan, tr: seq<State>)
    requires Enough(x) && Run(x, tr) && AllDone(x, tr[|tr| - 1])
    ensures CellsHold(x.c, tr[|tr| - 1].mem)
  {
    forall w: nat, p: nat | Swwcb.Cell(x.c, w, p)
      ensures CellHolds(x.c, tr[|tr| - 1].mem, w, p)
    {
      ScatterIsExact(x, tr, w, p);
    }
  }

  /** The unbuffered parallel pass partitions the concatenation of the chunks. */
  lemma ScatterPartitions(t: nat, r: Radix, chunks: seq<seq<Tuple>>, base: nat, pad: nat, size: nat, back: bool, tr: seq<State>)
    requires 0 < t && Fits(Flatten(chunks), r, base, pad, size) && chunks != []
    requires Run(Plan(ParallelPass(t, r, chunks, base, pad, size), pad, back), tr)
    requires AllDone(Plan(ParallelPass(t, r, chunks, base, pad, size), pad, back), tr[|tr| - 1])
    ensures Partitioned(tr[|tr| - 1].mem, Flatten(chunks), r, base, pad)
  {
    ParallelEnough(t, r, chunks, base, pad, size, back);
    ScatterCellsHold(Plan(ParallelPass(t, r, chunks, base, pad, size), pad, back), tr);
    ParallelCells(t, r, chunks, base, pad, size, tr[|tr| - 1].mem);
  }

  /** The unbuffered second pass partitions every task, whichever thread runs it and when. */
  lemma SerialScatterPartitions(t: nat, r: Radix, jobs: seq<Job>, size: nat, tr: seq<State>, k: nat)
    requires 0 < t && Spaced(jobs, t, r, size) && k < |jobs|
    requires Run(Plan(SerialPasses(t, r, jobs, size), t, false), tr)
    requires AllDone(Plan(SerialPasses(t, r, jobs, size), t, false), tr[|tr| - 1])
    ensures Partitioned(tr[|tr| - 1].mem, jobs[k].rel, r, jobs[k].base, t)
  {
    SerialEnough(t, r, jobs, size);
    ScatterCellsHold(Plan(SerialPasses(t, r, jobs, size), t, false), tr);
    SerialCells(t, r, jobs, size, tr[|tr| - 1].mem, k);
  }

  /** The buffered machine refines the plain one: whatever the two schedules and whatever the two
      arrays held before, the slots of every range end up the same. */
  lemma BuffersRefinePlainScatter(x: Plan, plain: seq<State>, buffered: seq<Swwcb.State>, w: nat, p: nat)
    requires Enough(x) && Swwcb.Cell(x.c, w, p)
    requires Run(x, plain) && AllDone(x, plain[|plain| - 1])
    requires SwwcbProofs.Run(x.c, buffered) && SwwcbProofs.AllDone(buffered[|buffered| - 1])
    ensures SameSlots(plain[|plain| - 1].mem, buffered[|buffered| - 1].mem, x.c.start[w][p], |Swwcb.Mine(x.c, w, p)|)
  {
    ScatterIsExact(x, plain, w, p);
    SwwcbProofs.EveryTupleInItsSlot(x.c, buffered, w, p);
    HoldTheSame(plain[|plain| - 1].mem, buffered[|buffered| - 1].mem, x.c.start[w][p], Swwcb.Mine(x.c, w, p));
  }

  ghost predicate SameSlots(a: seq<Tuple>, b: seq<Tuple>, at: nat, n: nat) {
    at + n <= |a| && at + n <= |b| && a[at..at + n] == b[at..at + n]
  }

  lemma HoldTheSame(a: seq<Tuple>, b: seq<Tuple>, at: nat, part: seq<Tuple>)
    requires HoldsAt(a, at, part) && HoldsAt(b, at, part)
    ensures SameSlots(a, b, at, |part|)
  {
  }

  // ----- every run ends -----

  /** One step for every tuple still to be stored, and one for every offset to be moved back. */
  function Left(x: Plan, w: nat, th: Thread): nat
    requires w < |x.c.inputs|
  {
    SwwcbProofs.Rest(|x.c.inputs[w]|, th.i) + SwwcbProofs.Rest(Backs(x), th.back)
  }

  function LeftOf(x: Plan, ts: seq<Thread>): nat -> nat {
    (w: nat) => if w < |ts| && w < |x.c.inputs| then Left(x, w, ts[w]) else 0
  }

  function Work(x: Plan, ts: seq<Thread>): nat { SumTo(LeftOf(x, ts), |x.c.inputs|) }

  lemma StepUsesOneUp(x: Plan, s: State, s': State, w: nat)
    requires Step(x, s, s', w)
    ensures Work(x, s'.ts) < Work(x, s.ts)
  {
    SumToDrops(LeftOf(x, s.ts), LeftOf(x, s'.ts), w, |x.c.inputs|);
  }

  /** The offsets that a thread moves back. */
  function Backs(x: Plan): nat { if x.back then x.c.radix.fanout else 0 }

  function StepsOf(x: Plan, w: nat): nat
    requires w < |x.c.inputs|
  {
    |x.c.inputs[w]| + Backs(x)
  }

  function Budget(x: Plan): nat -> nat {
    (w: nat) => if w < |x.c.inputs| then StepsOf(x, w) else 0
  }

  lemma StartWithinBudget(x: Plan, s: State)
    requires Init(x, s)
    ensures Work(x, s.ts) == SumTo(Budget(x), |x.c.inputs|)
  {
    SumToSame(LeftOf(x, s.ts), Budget(x), |x.c.inputs|);
  }

  /** No run is longer than the tuples and the offsets allow. */
  lemma RunsEnd(x: Plan, tr: seq<State>)
    requires Run(x, tr)
    ensures |tr| - 1 <= SumTo(Budget(x), |x.c.inputs|)
  {
    forall s, s' | Next(x, s, s')
      ensures Work(x, s'.ts) < Work(x, s.ts)
    {
      var w: nat :| Step(x, s, s', w);
      StepUsesOneUp(x, s, s', w);
    }
    Bounded(tr, (s: State) => Init(x, s), (s: State, s': State) => Next(x, s, s'), (s: State) => true,
            (s: State) => Work(x, s.ts), |tr| - 1);
    StartWithinBudget(x, tr[0]);
  }
}
