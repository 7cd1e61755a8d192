/** Inputs on which the code does less than a nested-loop join, each for one of the conditions that the
    other modules prove to be exact. */
module Witnesses {
  import opened Bits
  import opened Relations
  import opened Runs
  import opened Offsets
  import opened Accumulators
  import opened Probing
  import opened Tasks
  import LinearProbing
  import ConcurrentProbing
  import VectorProbe
  import IntermediateBuffers
  import SecondPassQueues


  lemma JoinOfOnes(w: Measure, x: Tuple, s: Tuple)
    ensures NestedLoop(w, [x], [s]) == Weight(w, x, s)
  {
    JoinSnoc(w, [x], [], s);
    ProbeSnoc(w, [], x, s);
    assert [] + [s] == [s] && [] + [x] == [x];
  }

  lemma JoinOfTwoAndOne(w: Measure, x: Tuple, y: Tuple, s: Tuple)
    ensures NestedLoop(w, [x, y], [s]) == Weight(w, x, s) + Weight(w, y, s)
  {
    JoinSnoc(w, [x, y], [], s);
    ProbeSnoc(w, [x], y, s);
    ProbeSnoc(w, [], x, s);
    assert [] + [s] == [s] && [] + [x] == [x] && [x] + [y] == [x, y];
  }

  // ----- the vectorised kernel and key 0 -----

  lemma FourHashesToZero()
    ensures Hash(Radix(4, 0), 4) == 0 && Hash(Radix(4, 0), 0) == 0
  {
    assert Shl(3, 0) == 3;
    assert And(1, 0) == 0;
    assert And(2, 1) == 2 * And(1, 0);
    assert And(4, 3) == 2 * And(2, 1);
  }

  /** One build tuple with key 4, one probe tuple with key 0, four hash values: the window over the run
      of hash value 0 compares the build tuple and three padding tuples.  The kernel counts three
      matches where there is none. */
  lemma HroCountsPadding(acc: Totals)
    requires IsJoin(acc, VectorProbe.Widened([Tuple(4, 7)], Radix(4, 0)), [Tuple(0, 5)])
    ensures acc.matched == 3 && !IsJoin(acc, [Tuple(4, 7)], [Tuple(0, 5)])
  {
    var R, S, r := [Tuple(4, 7)], [Tuple(0, 5)], Radix(4, 0);
    FourHashesToZero();
    assert R[..0] == [];
    assert Below(R, r, 1) == 1 && Below(R, r, 0) == 0;
    assert VectorProbe.WindowsEnd(0, 1) == VectorProbe.WindowsEnd(4, 1) == 4;
    assert VectorProbe.Excess(R, r) == 3;
    OneZeroKey();
    VectorProbe.WidenedCounts(R, S, 3);
    JoinOfOnes(Matched, R[0], S[0]);
    assert Times(1, 3) == 3;
  }

  lemma OneZeroKey()
    ensures VectorProbe.ZeroKeys([Tuple(0, 5)]) == 1
  {
    assert [Tuple(0, 5)][..0] == [];
  }

  // ----- linear probing and duplicate keys -----

  /** Two build tuples and a probe tuple with key 1: whatever the table, the lookup counts one match of
      two. */
  lemma LookupMissesDuplicate(mem: seq<Tuple>, r: Radix)
    requires LinearProbing.Holds(mem, r, [Tuple(1, 2), Tuple(1, 3)])
    ensures !IsJoin(LookupTotals(LinearProbing.Slots(mem), r, [Tuple(1, 4)]), [Tuple(1, 2), Tuple(1, 3)], [Tuple(1, 4)])
  {
    var R, S := [Tuple(1, 2), Tuple(1, 3)], [Tuple(1, 4)];
    JoinOfTwoAndOne(Matched, R[0], R[1], S[0]);
    ProbeSnoc(Matched, [R[0]], R[1], S[0]);
    ProbeSnoc(Matched, [], R[0], S[0]);
    assert [] + [R[0]] == [R[0]] && [R[0]] + [R[1]] == R;
    assert S[0] in S && !AtMostOne(R, S);
    LookupTotalsAreTheJoin(LinearProbing.Slots(mem), r, R, S);
  }

  // ----- a plain lookup in a full table -----

  lemma OneSlot(key: nat)
    ensures Hash(Radix(1, 0), key) == 0
  {
  }

  /** A table of one slot with key 1: the plain lookup of key 2 passes the slot for ever. */
  lemma PlainLookupNeverStops()
    ensures LinearProbing.Holds([Tuple(1, 0)], Radix(1, 0), [Tuple(1, 0)])
    ensures !LinearProbing.Ends([Tuple(1, 0)], Hash(Radix(1, 0), 2), 2)
  {
    var mem, r := [Tuple(1, 0)], Radix(1, 0);
    var table := LinearProbing.Slots(mem);
    OneSlot(1);
    OneSlot(2);
    assert table[..0] == [] && Entries(table) == [Tuple(1, 0)];
    assert Valid(table, r);
    forall d: nat
      ensures Passes(table[Probing.At(0, d, 1)], 2)
    {
    }
  }

  // ----- the shared table and missing keys -----

  /** The shared table of one build tuple with key 1 has no tuple for a probe key 2: the lookup comes
      back with none, and the code reads it all the same. */
  lemma LookupReadsNothing(hash: seq<nat>, tup: seq<Tuple>, r: Radix)
    requires ConcurrentProbing.Holds(hash, tup, r, [Tuple(1, 0)])
    ensures Outcome(ConcurrentProbing.TableOf(hash, tup), Hash(r, 2), 2).Empty?
  {
    LookupIsRight(ConcurrentProbing.TableOf(hash, tup), r, [Tuple(1, 0)], 2);
  }

  // ----- the buffer of the vectorised kernel -----

  /** With 8 tuples and a scaling factor of 2 a thread is given 128 bytes, and the kernel clears 224. */
  lemma HroBufferTooSmall()
    ensures IntermediateBuffers.HroBytes(8) == 224 && IntermediateBuffers.Given(8, 2) == 128
  {
    assert IntermediateBuffers.NextPow2(2) == 2 && IntermediateBuffers.NextPow2(4) == 4;
  }

  // ----- no writers -----

  /** One thread that may not write, one task: a run at whose end the task is still in the second queue,
      whatever join tasks it stands for. */
  lemma TaskIsLeft<T(!new)>(sub: T -> nat -> Task, t: T, fan: nat) returns (tr: seq<SecondPassQueues.State<T>>)
    ensures SecondPassQueues.Run(SecondPassQueues.Plan(1, 0, fan, false), sub, [t], tr)
    ensures SecondPassQueues.AllDone(tr[|tr| - 1]) && tr[|tr| - 1].join == [] && SecondPassQueues.TasksOf(tr[|tr| - 1].mid) == [t]
  {
    var plan := SecondPassQueues.Plan(1, 0, fan, false);
    var s0: SecondPassQueues.State<T> := SecondPassQueues.State.State([t], [], 0, [], [], [0], [SecondPassQueues.Fetch1]);
    var item := SecondPassQueues.Item(t, 0);
    var s1 := s0.(part := [], ts := [SecondPassQueues.Got1(t)]);
    var s2 := s1.(idx := 1, ts := [SecondPassQueues.Counted(item)]);
    var s3 := s2.(mid := [item], ts := [SecondPassQueues.Fetch1]);
    var s4 := s3.(ts := [SecondPassQueues.Wait]);
    var s5 := s4.(ts := [SecondPassQueues.Done]);
    assert seq(1, _ => 0) == [0] && seq(1, _ => SecondPassQueues.Pc<T>.Fetch1) == [SecondPassQueues.Fetch1];
    assert SecondPassQueues.Init(plan, [t], s0);
    assert SecondPassQueues.Get1(s0, s1, 0) && SecondPassQueues.Step(plan, sub, s0, s1, 0);
    assert SecondPassQueues.TakeSlice(s1, s2, 0) && SecondPassQueues.Step(plan, sub, s1, s2, 0);
    assert [item] + [] == [item];
    assert SecondPassQueues.Finish1(plan, s2, s3, 0) && SecondPassQueues.Step(plan, sub, s2, s3, 0);
    assert SecondPassQueues.Get1(s3, s4, 0) && SecondPassQueues.Step(plan, sub, s3, s4, 0);
    assert SecondPassQueues.Pass(plan, s4, s5, 0) && SecondPassQueues.Step(plan, sub, s4, s5, 0);
    tr := [s0, s1, s2, s3, s4, s5];
    var next := (s: SecondPassQueues.State<T>, s': SecondPassQueues.State<T>) => SecondPassQueues.Next(plan, sub, s, s');
    forall i: nat | 0 < i < |tr|
      ensures Follows(tr, next, i)
    {
      assert SecondPassQueues.Step(plan, sub, tr[i - 1], tr[i], 0);
    }
  }
}
