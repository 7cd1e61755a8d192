/** The partitioning passes as configurations of the buffered machine, and what they leave behind. */
module Partitioning {
  import opened Bits
  import opened Blocks
  import opened Relations
  import opened Offsets
  import opened Swwcb
  import opened SwwcbProofs

  /** Where cluster `p` of a partitioned relation begins: after the lower clusters, each padded. */
  function ClusterBase(rel: seq<Tuple>, r: Radix, base: nat, pad: nat, p: nat): nat {
    base + Below(rel, r, p) + Times(p, pad)
  }

  /** The array holds every cluster of `rel`, stable and contiguous, at its place. */
  ghost predicate Partitioned(mem: seq<Tuple>, rel: seq<Tuple>, r: Radix, base: nat, pad: nat) {
    forall p: nat {:trigger HoldsAt(mem, ClusterBase(rel, r, base, pad, p), Sel(rel, r, p))} ::
      p < r.fanout ==> HoldsAt(mem, ClusterBase(rel, r, base, pad, p), Sel(rel, r, p))
  }

  ghost predicate HoldsAt(mem: seq<Tuple>, at: nat, part: seq<Tuple>) {
    at + |part| <= |mem| && mem[at..at + |part|] == part
  }

  // ----- all threads on one relation -----

  function Seat(chunks: seq<seq<Tuple>>, r: Radix, base: nat, pad: nat, w: nat, p: nat): nat {
    base + Start(chunks, r, w, p) + Times(p, pad)
  }

  /** The parallel pass: chunk `w` belongs to thread `w`, and all threads meet at a barrier between
      scattering and draining.  `base` is the global offset of the output. */
  function ParallelPass(t: nat, r: Radix, chunks: seq<seq<Tuple>>, base: nat, pad: nat, size: nat): Config {
    Config(t, r, chunks,
           seq(|chunks|, (w: nat) => seq(r.fanout, (p: nat) => Seat(chunks, r, base, pad, w, p))),
           size, true)
  }

  ghost predicate Fits(rel: seq<Tuple>, r: Radix, base: nat, pad: nat, size: nat) {
    base + |rel| + Times(r.fanout, pad) <= size
  }

  /** Ranges follow each other by cluster first, by thread second. */
  lemma SeatsInOrder(chunks: seq<seq<Tuple>>, r: Radix, base: nat, pad: nat, w: nat, p: nat, w': nat, p': nat)
    requires w < |chunks| && w' < |chunks|
    requires p < p' || (p == p' && w < w')
    ensures Seat(chunks, r, base, pad, w, p) + |Sel(chunks[w], r, p)| <= Seat(chunks, r, base, pad, w', p')
  {
    if p == p' {
      StartThreads(chunks, r, w, w', p);
    } else {
      StartThreads(chunks, r, w, |chunks|, p);
      StartClusters(chunks, r, p, p');
      StartThreads(chunks, r, 0, w', p');
      TimesMonotone(p, p', pad);
    }
  }

  lemma SeatsInside(chunks: seq<seq<Tuple>>, r: Radix, base: nat, pad: nat, w: nat, p: nat)
    requires w < |chunks| && p < r.fanout
    ensures base + Below(Flatten(chunks), r, p) + Times(p, pad) <= Seat(chunks, r, base, pad, w, p)
    ensures Seat(chunks, r, base, pad, w, p) + |Sel(chunks[w], r, p)| + pad
         <= base + |Flatten(chunks)| + Times(r.fanout, pad)
  {
    FirstStart(chunks, r, p);
    StartThreads(chunks, r, 0, w, p);
    StartThreads(chunks, r, w, |chunks|, p);
    StartClusters(chunks, r, p, r.fanout);
    FirstStart(chunks, r, r.fanout);
    BelowAll(Flatten(chunks), r);
    TimesMonotone(p, r.fanout, pad);
  }

  lemma ParallelPassValid(t: nat, r: Radix, chunks: seq<seq<Tuple>>, base: nat, pad: nat, size: nat)
    requires 0 < t && Fits(Flatten(chunks), r, base, pad, size)
    ensures Valid(ParallelPass(t, r, chunks, base, pad, size))
  {
    var c := ParallelPass(t, r, chunks, base, pad, size);
    forall w: nat, p: nat | Cell(c, w, p)
      ensures End(c, w, p) <= size
    {
      SeatsInside(chunks, r, base, pad, w, p);
    }
    forall w: nat, p: nat, w': nat, p': nat | Cell(c, w, p) && Cell(c, w', p') && (w != w' || p != p')
      ensures Apart(c, w, p, w', p')
    {
      if p < p' || (p == p' && w < w') {
        SeatsInOrder(chunks, r, base, pad, w, p, w', p');
      } else {
        SeatsInOrder(chunks, r, base, pad, w', p', w, p);
      }
    }
  }

  ghost predicate SeatsHold(mem: seq<Tuple>, r: Radix, chunks: seq<seq<Tuple>>, base: nat, pad: nat, p: nat) {
    forall w: nat :: w < |chunks| ==> HoldsAt(mem, Seat(chunks, r, base, pad, w, p), Sel(chunks[w], r, p))
  }

  /** The ranges of the first `n` threads in cluster `p`, side by side. */
  lemma {:induction false} ThreadsInCluster(r: Radix, chunks: seq<seq<Tuple>>, base: nat, pad: nat, mem: seq<Tuple>, p: nat, n: nat)
    requires n <= |chunks| && SeatsHold(mem, r, chunks, base, pad, p) && Seat(chunks, r, base, pad, 0, p) <= |mem|
    ensures var all := Sel(Flatten(chunks[..n]), r, p);
      && Seat(chunks, r, base, pad, n, p) == Seat(chunks, r, base, pad, 0, p) + |all|
      && HoldsAt(mem, Seat(chunks, r, base, pad, 0, p), all)
  {
    if n > 0 {
      ThreadsInCluster(r, chunks, base, pad, mem, p, n - 1);
      OneThreadMore(r, chunks, base, pad, mem, p, n - 1);
    }
  }

  lemma OneThreadMore(r: Radix, chunks: seq<seq<Tuple>>, base: nat, pad: nat, mem: seq<Tuple>, p: nat, m: nat)
    requires m < |chunks| && SeatsHold(mem, r, chunks, base, pad, p)
    requires Seat(chunks, r, base, pad, m, p) == Seat(chunks, r, base, pad, 0, p) + |Sel(Flatten(chunks[..m]), r, p)|
    requires HoldsAt(mem, Seat(chunks, r, base, pad, 0, p), Sel(Flatten(chunks[..m]), r, p))
    ensures Seat(chunks, r, base, pad, m + 1, p) == Seat(chunks, r, base, pad, 0, p) + |Sel(Flatten(chunks[..m + 1]), r, p)|
    ensures HoldsAt(mem, Seat(chunks, r, base, pad, 0, p), Sel(Flatten(chunks[..m + 1]), r, p))
  {
    StartNextThread(chunks, r, m, p);
    assert HoldsAt(mem, Seat(chunks, r, base, pad, m, p), Sel(chunks[m], r, p));
    HoldsBoth(mem, Seat(chunks, r, base, pad, 0, p), Sel(Flatten(chunks[..m]), r, p), Sel(chunks[m], r, p));
    SelFlatten(chunks, r, p, m);
  }

  lemma SelFlatten(chunks: seq<seq<Tuple>>, r: Radix, p: nat, m: nat)
    requires m < |chunks|
    ensures Sel(Flatten(chunks[..m + 1]), r, p) == Sel(Flatten(chunks[..m]), r, p) + Sel(chunks[m], r, p)
  {
    Snoc(chunks, m);
    FlattenSnoc(chunks[..m], chunks[m]);
    SelConcat(Flatten(chunks[..m]), chunks[m], r, p);
  }

  lemma HoldsBoth(mem: seq<Tuple>, at: nat, a: seq<Tuple>, b: seq<Tuple>)
    requires HoldsAt(mem, at, a) && HoldsAt(mem, at + |a|, b)
    ensures HoldsAt(mem, at, a + b)
  {
    assert mem[at..at + |a + b|] == mem[at..at + |a|] + mem[at + |a|..at + |a| + |b|];
  }

  /** Every range holds the tuples of its cell: what a pass has to achieve, however it stores. */
  ghost predicate CellsHold(c: Config, mem: seq<Tuple>)
    requires Shape(c)
  {
    forall w: nat, p: nat {:trigger CellHolds(c, mem, w, p)} :: Cell(c, w, p) ==> CellHolds(c, mem, w, p)
  }

  ghost predicate CellHolds(c: Config, mem: seq<Tuple>, w: nat, p: nat)
    requires Shape(c) && Cell(c, w, p)
  {
    HoldsAt(mem, c.start[w][p], Mine(c, w, p))
  }

  /** Slots outside the blocks of all ranges keep what they held. */
  ghost predicate Untouched(c: Config, mem: seq<Tuple>, mem': seq<Tuple>)
    requires Shape(c)
  {
    |mem| == |mem'| == c.size && forall q: nat :: q < c.size && !Touchable(c, q) ==> mem'[q] == mem[q]
  }

  /** The buffered pass achieves it, under every schedule. */
  lemma BufferedCellsHold(c: Config, tr: seq<State>)
    requires Valid(c) && Run(c, tr) && AllDone(tr[|tr| - 1])
    ensures CellsHold(c, tr[|tr| - 1].mem)
  {
    forall w: nat, p: nat | Cell(c, w, p)
      ensures CellHolds(c, tr[|tr| - 1].mem, w, p)
    {
      EveryTupleInItsSlot(c, tr, w, p);
    }
  }

  /** Then the concatenation of the chunks is partitioned. */
  lemma ParallelCells(t: nat, r: Radix, chunks: seq<seq<Tuple>>, base: nat, pad: nat, size: nat, mem: seq<Tuple>)
    requires 0 < t && chunks != [] && Shape(ParallelPass(t, r, chunks, base, pad, size))
    requires CellsHold(ParallelPass(t, r, chunks, base, pad, size), mem)
    ensures Partitioned(mem, Flatten(chunks), r, base, pad)
  {
    var c := ParallelPass(t, r, chunks, base, pad, size);
    var rel := Flatten(chunks);
    forall p: nat | p < r.fanout
      ensures HoldsAt(mem, ClusterBase(rel, r, base, pad, p), Sel(rel, r, p))
    {
      SeatsFromCells(t, r, chunks, base, pad, size, mem, p);
      assert HoldsAt(mem, Seat(chunks, r, base, pad, 0, p), Sel(chunks[0], r, p));
      ThreadsInCluster(r, chunks, base, pad, mem, p, |chunks|);
      assert chunks[..|chunks|] == chunks;
      FirstStart(chunks, r, p);
    }
  }

  lemma SeatsFromCells(t: nat, r: Radix, chunks: seq<seq<Tuple>>, base: nat, pad: nat, size: nat, mem: seq<Tuple>, p: nat)
    requires p < r.fanout && Shape(ParallelPass(t, r, chunks, base, pad, size))
    requires CellsHold(ParallelPass(t, r, chunks, base, pad, size), mem)
    ensures SeatsHold(mem, r, chunks, base, pad, p)
  {
    var c := ParallelPass(t, r, chunks, base, pad, size);
    forall w: nat | w < |chunks|
      ensures HoldsAt(mem, Seat(chunks, r, base, pad, w, p), Sel(chunks[w], r, p))
    {
      assert Cell(c, w, p);
      assert CellHolds(c, mem, w, p);
    }
  }

  /** Under every schedule the parallel pass partitions the concatenation of the chunks. */
  lemma ParallelPassPartitions(t: nat, r: Radix, chunks: seq<seq<Tuple>>, base: nat, pad: nat, size: nat, tr: seq<State>)
    requires 0 < t && Fits(Flatten(chunks), r, base, pad, size) && chunks != []
    requires Shape(ParallelPass(t, r, chunks, base, pad, size))
    requires Run(ParallelPass(t, r, chunks, base, pad, size), tr) && AllDone(tr[|tr| - 1])
    ensures Partitioned(tr[|tr| - 1].mem, Flatten(chunks), r, base, pad)
  {
    ParallelPassValid(t, r, chunks, base, pad, size);
    BufferedCellsHold(ParallelPass(t, r, chunks, base, pad, size), tr);
    ParallelCells(t, r, chunks, base, pad, size, tr[|tr| - 1].mem);
  }

  /** A pass over part of an array stays within one block below and inside its padding above. */
  lemma ParallelPassStaysInside(t: nat, r: Radix, chunks: seq<seq<Tuple>>, base: nat, pad: nat, size: nat, q: nat)
    requires 0 < t && Shape(ParallelPass(t, r, chunks, base, pad, size))
    requires q + t <= base || base + |Flatten(chunks)| + Times(r.fanout, pad) <= q + pad
    ensures !Touchable(ParallelPass(t, r, chunks, base, pad, size), q)
  {
    var c := ParallelPass(t, r, chunks, base, pad, size);
    if Touchable(c, q) {
      var w: nat, p: nat :| Cell(c, w, p) && Mine(c, w, p) != [] && Base(c.start[w][p], c.t) <= q < End(c, w, p);
      SeatsInside(chunks, r, base, pad, w, p);
    }
  }

  // ----- many tasks, each partitioned by one thread -----

  /** A second-pass task: its tuples, and where its output begins (the global offset). */
  datatype Job = Job(rel: seq<Tuple>, base: nat)

  /** The second pass: every task is a writer of its own, whichever thread runs it and whenever.
      There is no barrier between scattering and draining; clusters are padded by one block. */
  function SerialPasses(t: nat, r: Radix, jobs: seq<Job>, size: nat): Config {
    Config(t, r, seq(|jobs|, (k: nat) requires k < |jobs| => jobs[k].rel),
           seq(|jobs|, (k: nat) requires k < |jobs| =>
             seq(r.fanout, (p: nat) => ClusterBase(jobs[k].rel, r, jobs[k].base, t, p))),
           size, false)
  }

  /** The tasks are laid out one after the other with a block of padding per cluster. */
  ghost predicate Spaced(jobs: seq<Job>, t: nat, r: Radix, size: nat) {
    && (forall k: nat :: k < |jobs| ==> Fits(jobs[k].rel, r, jobs[k].base, t, size))
    && (forall k: nat, k': nat :: k < k' < |jobs| ==> Fits(jobs[k].rel, r, jobs[k].base, t, jobs[k'].base))
  }

  lemma ClusterInside(rel: seq<Tuple>, r: Radix, base: nat, pad: nat, p: nat)
    requires p < r.fanout
    ensures base <= ClusterBase(rel, r, base, pad, p)
    ensures ClusterBase(rel, r, base, pad, p) + |Sel(rel, r, p)| + pad <= base + |rel| + Times(r.fanout, pad)
  {
    BelowMonotone(rel, r, p, r.fanout);
    BelowAll(rel, r);
    TimesMonotone(p, r.fanout, pad);
  }

  lemma ClustersApart(rel: seq<Tuple>, r: Radix, base: nat, pad: nat, p: nat, p': nat)
    requires p < p'
    ensures ClusterBase(rel, r, base, pad, p) + |Sel(rel, r, p)| + pad <= ClusterBase(rel, r, base, pad, p')
  {
    BelowMonotone(rel, r, p, p');
    TimesMonotone(p, p', pad);
  }

  lemma SerialPassesValid(t: nat, r: Radix, jobs: seq<Job>, size: nat)
    requires 0 < t && Spaced(jobs, t, r, size)
    ensures Valid(SerialPasses(t, r, jobs, size))
  {
    var c := SerialPasses(t, r, jobs, size);
    forall k: nat, p: nat | Cell(c, k, p)
      ensures End(c, k, p) <= size
    {
      ClusterInside(jobs[k].rel, r, jobs[k].base, t, p);
    }
    forall k: nat, p: nat, k': nat, p': nat | Cell(c, k, p) && Cell(c, k', p') && (k != k' || p != p')
      ensures Apart(c, k, p, k', p')
      ensures Clear(c, k, p, k', p')
    {
      JobsClear(t, r, jobs, size, k, p, k', p');
    }
  }

  lemma JobsClear(t: nat, r: Radix, jobs: seq<Job>, size: nat, k: nat, p: nat, k': nat, p': nat)
    requires 0 < t && Spaced(jobs, t, r, size)
    requires k < |jobs| && k' < |jobs| && p < r.fanout && p' < r.fanout && (k != k' || p != p')
    ensures var c := SerialPasses(t, r, jobs, size);
      Shape(c) && Apart(c, k, p, k', p') && Clear(c, k, p, k', p')
  {
    if k < k' || (k == k' && p < p') {
      PaddedApart(t, r, jobs, size, k, p, k', p');
    } else {
      PaddedApart(t, r, jobs, size, k', p', k, p);
    }
  }

  lemma PaddedApart(t: nat, r: Radix, jobs: seq<Job>, size: nat, k: nat, p: nat, k': nat, p': nat)
    requires 0 < t && Spaced(jobs, t, r, size)
    requires k < |jobs| && k' < |jobs| && p < r.fanout && p' < r.fanout
    requires k < k' || (k == k' && p < p')
    ensures ClusterBase(jobs[k].rel, r, jobs[k].base, t, p) + |Sel(jobs[k].rel, r, p)| + t
         <= ClusterBase(jobs[k'].rel, r, jobs[k'].base, t, p')
  {
    if k == k' {
      ClustersApart(jobs[k].rel, r, jobs[k].base, t, p, p');
    } else {
      ClusterInside(jobs[k].rel, r, jobs[k].base, t, p);
      ClusterInside(jobs[k'].rel, r, jobs[k'].base, t, p');
    }
  }

  /** Then every task is partitioned. */
  lemma SerialCells(t: nat, r: Radix, jobs: seq<Job>, size: nat, mem: seq<Tuple>, k: nat)
    requires 0 < t && Shape(SerialPasses(t, r, jobs, size)) && CellsHold(SerialPasses(t, r, jobs, size), mem) && k < |jobs|
    ensures Partitioned(mem, jobs[k].rel, r, jobs[k].base, t)
  {
    var c := SerialPasses(t, r, jobs, size);
    forall p: nat | p < r.fanout
      ensures HoldsAt(mem, ClusterBase(jobs[k].rel, r, jobs[k].base, t, p), Sel(jobs[k].rel, r, p))
    {
      assert Cell(c, k, p);
      assert CellHolds(c, mem, k, p);
    }
  }

  /** Under every schedule of the tasks, each is partitioned as if it ran alone. */
  lemma SerialPassesPartition(t: nat, r: Radix, jobs: seq<Job>, size: nat, tr: seq<State>, k: nat)
    requires 0 < t && Spaced(jobs, t, r, size) && Shape(SerialPasses(t, r, jobs, size))
    requires Run(SerialPasses(t, r, jobs, size), tr) && AllDone(tr[|tr| - 1]) && k < |jobs|
    ensures Partitioned(tr[|tr| - 1].mem, jobs[k].rel, r, jobs[k].base, t)
  {
    SerialPassesValid(t, r, jobs, size);
    BufferedCellsHold(SerialPasses(t, r, jobs, size), tr);
    SerialCells(t, r, jobs, size, tr[|tr| - 1].mem, k);
  }

  /** Partitions of the parallel pass are far enough apart to be partitioned again side by side:
      each was padded by one block per cluster of the second pass. */
  lemma FirstPassLeavesRoom(rel: seq<Tuple>, r: Radix, t: nat, r2: Radix, p: nat, p': nat)
    requires p < p' <= r.fanout
    ensures var pad := Times(r2.fanout, t);
      Fits(Sel(rel, r, p), r2, ClusterBase(rel, r, 0, pad, p), t, ClusterBase(rel, r, 0, pad, p'))
  {
    ClustersApart(rel, r, 0, Times(r2.fanout, t), p, p');
  }

  // ----- sizes from the offsets of thread 0 -----

  /** How thread 0 gets the size of a cluster from its own output offsets (all in `size_t`). */
  function SizeFromOffsets(off: seq<nat>, total: nat, pad: nat, p: nat): int
    requires p < |off|
  {
    if p == |off| - 1 then total - off[p] + Times(p, pad) else off[p + 1] - off[p] - pad
  }

  /** It is the exact size of the cluster over all threads. */
  lemma SizesAreExact(chunks: seq<seq<Tuple>>, r: Radix, pad: nat, off: seq<nat>, p: nat)
    requires |off| == r.fanout && p < r.fanout
    requires forall q: nat :: q < r.fanout ==> off[q] == Start(chunks, r, 0, q) + Times(q, pad)
    ensures SizeFromOffsets(off, |Flatten(chunks)|, pad, p) == |Sel(Flatten(chunks), r, p)|
    ensures off[p] == ClusterBase(Flatten(chunks), r, 0, pad, p)
  {
    FirstStart(chunks, r, p);
    FirstStart(chunks, r, p + 1);
    BelowAll(Flatten(chunks), r);
  }
}
