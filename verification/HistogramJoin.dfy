/** `hr_join`: the build side is reordered by hash value, and a probe scans one run of it. */
module HistogramJoin {
  import opened Bits
  import opened Relations
  import opened Accumulators
  import opened Offsets
  import opened Partitioning
  import opened PlainScatter
  import opened Runs

  /** The reordered build side, and the end of every run. */
  ghost predicate Reordered(mem: seq<Tuple>, ends: seq<Bin>, R: seq<Tuple>, r: Radix) {
    Partitioned(mem, R, r, 0, 0) && EndsCounted(ends, R, r) && |R| <= |mem|
  }

  lemma {:induction false} TimesZero(a: nat)
    ensures Times(a, 0) == 0
  {
    if a > 0 {
      TimesZero(a - 1);
    }
  }

  /** Where the run of hash value `h` begins: the end of the run before, without a branch. */
  function RunStart(ends: seq<Bin>, h: nat): nat
    requires h < |ends|
  {
    var nz := if h != 0 then 1 else 0;
    ends[h - nz].prefix * nz
  }

  lemma RunHolds(mem: seq<Tuple>, ends: seq<Bin>, R: seq<Tuple>, r: Radix, h: nat)
    requires Reordered(mem, ends, R, r) && h < r.fanout
    ensures RunStart(ends, h) == Below(R, r, h) <= ends[h].prefix == Below(R, r, h + 1) <= |R|
    ensures mem[RunStart(ends, h)..ends[h].prefix] == Sel(R, r, h)
  {
    RunBounds(R, r, h);
    if h > 0 {
      assert ends[h - 1].prefix == Below(R, r, h - 1 + 1);
    }
    TimesZero(h);
    assert HoldsAt(mem, ClusterBase(R, r, 0, 0, h), Sel(R, r, h));
  }

  lemma RunBounds(R: seq<Tuple>, r: Radix, h: nat)
    requires h < r.fanout
    ensures Below(R, r, h + 1) == Below(R, r, h) + |Sel(R, r, h)| <= |R|
  {
    BelowMonotone(R, r, h + 1, r.fanout);
    BelowAll(R, r);
  }

  method BuildRuns(R: seq<Tuple>, r: Radix, out: array<Tuple>) returns (hist: array<Bin>)
    requires |R| <= out.Length
    modifies out
    ensures fresh(hist) && Reordered(out[..], hist[..], R, r)
    ensures SameOutside(old(out[..]), out[..], 0, |R|)
  {
    hist := new Bin[r.fanout](_ => Bin(0, 0));
    TimesZero(r.fanout);
    RadixCluster(R, out, hist, r, 0, 0);
  }

  method ScanRun(out: array<Tuple>, from: nat, to: nat, s: Tuple, acc0: Totals, ghost R: seq<Tuple>, ghost S: seq<Tuple>)
    returns (acc: Totals)
    requires from <= to <= out.Length && Partly(acc0, R, S, [], s)
    ensures Partly(acc, R, S, out[from..to], s)
  {
    acc := acc0;
    for jdx := from to to
      invariant Partly(acc, R, S, out[from..jdx], s)
    {
      PartlyOne(acc, R, S, out[from..jdx], out[jdx], s);
      acc := AddPair(acc, out[jdx], s);
      assert out[from..jdx + 1] == out[from..jdx] + [out[jdx]];
    }
  }

  lemma RunIsEnough(acc: Totals, R: seq<Tuple>, S: seq<Tuple>, r: Radix, i: nat)
    requires i < |S| && Partly(acc, R, S[..i], Sel(R, r, Hash(r, S[i].key)), S[i])
    ensures IsJoin(acc, R, S[..i + 1])
  {
    var seen := Sel(R, r, Hash(r, S[i].key));
    forall w
      ensures ProbeOne(w, seen, S[i]) == ProbeOne(w, R, S[i])
    {
      ProbeSel(w, R, r, Hash(r, S[i].key), S[i]);
    }
    PartlyEnd(acc, R, S, seen, i);
  }

  method ProbeRun(out: array<Tuple>, hist: array<Bin>, R: seq<Tuple>, r: Radix, s: Tuple, acc0: Totals, ghost S: seq<Tuple>)
    returns (acc: Totals)
    requires Reordered(out[..], hist[..], R, r) && IsJoin(acc0, R, S)
    ensures Partly(acc, R, S, Sel(R, r, Hash(r, s.key)), s)
  {
    var h := Hash(r, s.key);
    RunHolds(out[..], hist[..], R, r, h);
    PartlyStart(acc0, R, S, s);
    acc := ScanRun(out, RunStart(hist[..], h), hist[h].prefix, s, acc0, R, S);
    assert out[RunStart(hist[..], h)..hist[h].prefix] == out[..][RunStart(hist[..], h)..hist[..][h].prefix];
  }

  method ProbeRuns(out: array<Tuple>, hist: array<Bin>, R: seq<Tuple>, S: seq<Tuple>, r: Radix)
    returns (acc: Totals)
    requires Reordered(out[..], hist[..], R, r)
    ensures IsJoin(acc, R, S)
  {
    acc := ZERO;
    PartlyZero(R);
    for idx := 0 to |S|
      invariant IsJoin(acc, R, S[..idx])
    {
      acc := ProbeRun(out, hist, R, r, S[idx], acc, S[..idx]);
      RunIsEnough(acc, R, S, r, idx);
    }
    WholeJoin(acc, R, S);
  }

  /** The kernel: the totals of the nested-loop join, for a hash table of any size. */
  method HrJoin(R: seq<Tuple>, S: seq<Tuple>, r: Radix, out: array<Tuple>) returns (acc: Totals)
    requires |R| <= out.Length
    modifies out
    ensures IsJoin(acc, R, S)
    ensures SameOutside(old(out[..]), out[..], 0, |R|)
  {
    var hist := BuildRuns(R, r, out);
    acc := ProbeRuns(out, hist, R, S, r);
  }

  // ----- replicated builds over one output -----

  /** Skew handling gives the same build side to several threads, which all reorder it into the same
      array: each first clears the padding behind it, then stores the tuples one by one. */
  datatype Shared = Shared(R: seq<Tuple>, r: Radix, pad: nat, threads: nat)

  datatype Builder = Builder(cleared: nat, i: nat, ends: seq<nat>)

  datatype State = State(mem: seq<Tuple>, bs: seq<Builder>)

  const EMPTY := Tuple(0, 0)

  ghost predicate Init(c: Shared, s: State) {
    && |s.mem| == |c.R| + c.pad && |s.bs| == c.threads
    && forall k: nat :: k < c.threads ==>
         s.bs[k] == Builder(0, 0, seq(c.r.fanout, (h: nat) => Below(c.R, c.r, h)))
  }

  ghost predicate Clear(c: Shared, s: State, s': State, k: nat) {
    && k < |s.bs| && s.bs[k].cleared < c.pad && |c.R| + s.bs[k].cleared < |s.mem|
    && s' == State.State(s.mem[|c.R| + s.bs[k].cleared := EMPTY], s.bs[k := s.bs[k].(cleared := s.bs[k].cleared + 1)])
  }

  ghost predicate Put(c: Shared, s: State, s': State, k: nat) {
    && k < |s.bs| && s.bs[k].cleared == c.pad && s.bs[k].i < |c.R|
    && var b := s.bs[k];
       var h := Hash(c.r, c.R[b.i].key);
       && h < |b.ends| && b.ends[h] < |s.mem|
       && s' == State.State(s.mem[b.ends[h] := c.R[b.i]], s.bs[k := Builder(b.cleared, b.i + 1, b.ends[h := b.ends[h] + 1])])
  }

  ghost predicate Builds(c: Shared, s: State, s': State, k: nat) { Clear(c, s, s', k) || Put(c, s, s', k) }

  ghost predicate Next(c: Shared, s: State, s': State) {
    exists k: nat :: Builds(c, s, s', k)
  }

  /** The first `i` tuples, as far as they belong to run `h`, are in place. */
  ghost predicate Placed(R: seq<Tuple>, r: Radix, mem: seq<Tuple>, i: nat, h: nat)
    requires i <= |R|
  {
    HoldsAt(mem, Below(R, r, h), Sel(R[..i], r, h))
  }

  ghost predicate BuilderOk(c: Shared, mem: seq<Tuple>, b: Builder) {
    && b.cleared <= c.pad && b.i <= |c.R| && |b.ends| == c.r.fanout && |mem| == |c.R| + c.pad
    && (forall j: nat :: |c.R| <= j < |c.R| + b.cleared ==> mem[j] == EMPTY)
    && (forall h: nat :: h < c.r.fanout ==> Placed(c.R, c.r, mem, b.i, h))
    && (forall h: nat :: h < c.r.fanout ==> b.ends[h] == Below(c.R, c.r, h) + |Sel(c.R[..b.i], c.r, h)|)
  }

  ghost predicate Inv(c: Shared, s: State) {
    && |s.mem| == |c.R| + c.pad && |s.bs| == c.threads
    && forall k: nat :: k < |s.bs| ==> BuilderOk(c, s.mem, s.bs[k])
  }

  /** The slot of tuple `i` of the build side. */
  ghost function Place(R: seq<Tuple>, r: Radix, i: nat): nat
    requires i < |R|
  {
    Below(R, r, Hash(r, R[i].key)) + |Sel(R[..i], r, Hash(r, R[i].key))|
  }

  lemma PlaceInRun(R: seq<Tuple>, r: Radix, i: nat)
    requires i < |R|
    ensures var h := Hash(r, R[i].key);
      Below(R, r, h) <= Place(R, r, i) < Below(R, r, h) + |Sel(R, r, h)| <= |R|
  {
    var h := Hash(r, R[i].key);
    SelGrowsTo(R, i, r, h);
    RunBounds(R, r, h);
  }

  /** A store of one builder never changes what another one has stored: it puts the same tuple in
      the same slot. */
  lemma SameSlotSameTuple(R: seq<Tuple>, r: Radix, mem: seq<Tuple>, i: nat, j: nat, h: nat)
    requires i < |R| <= |mem| && j <= |R| && h < r.fanout && Placed(R, r, mem, j, h)
    ensures Place(R, r, i) < |R| && Placed(R, r, mem[Place(R, r, i) := R[i]], j, h)
  {
    var g := Hash(r, R[i].key);
    var q := Place(R, r, i);
    var at, part := Below(R, r, h), Sel(R[..j], r, h);
    PlaceInRun(R, r, i);
    PartIsShort(R, j, r, h);
    if g != h {
      BelowMonotone(R, r, if g < h then g else h, if g < h then h else g);
      HoldsElsewhere(mem, at, part, q, R[i]);
    } else if at + |part| <= q {
      HoldsElsewhere(mem, at, part, q, R[i]);
    } else {
      PrefixesAgree(R, i, j, r, h);
      StoreAgain(mem, at, part, q, R[i]);
    }
  }

  /** Storing what is there already. */
  lemma StoreAgain(mem: seq<Tuple>, at: nat, part: seq<Tuple>, q: nat, x: Tuple)
    requires HoldsAt(mem, at, part) && at <= q < at + |part| && part[q - at] == x
    ensures HoldsAt(mem[q := x], at, part)
  {
    assert mem[q] == mem[at..at + |part|][q - at];
    assert mem[q := x] == mem;
  }

  lemma PrefixesAgree(R: seq<Tuple>, i: nat, j: nat, r: Radix, h: nat)
    requires i < |R| && j <= |R| && Hash(r, R[i].key) == h && |Sel(R[..i], r, h)| < |Sel(R[..j], r, h)|
    ensures Sel(R[..j], r, h)[|Sel(R[..i], r, h)|] == R[i]
  {
    var n := |Sel(R[..i], r, h)|;
    SelGrowsTo(R, i, r, h);
    assert n < |Sel(R[..i + 1], r, h)| && Sel(R[..i + 1], r, h)[n] == R[i];
    SelPrefixAt(R, i + 1, r, h, n);
    SelPrefixAt(R, j, r, h, n);
  }

  lemma SelPrefixAt(R: seq<Tuple>, j: nat, r: Radix, h: nat, n: nat)
    requires j <= |R| && n < |Sel(R[..j], r, h)|
    ensures n < |Sel(R, r, h)| && Sel(R, r, h)[n] == Sel(R[..j], r, h)[n]
  {
    assert R == R[..j] + R[j..];
    SelConcat(R[..j], R[j..], r, h);
  }

  lemma OwnPut(R: seq<Tuple>, r: Radix, mem: seq<Tuple>, i: nat, h: nat)
    requires i < |R| <= |mem| && h < r.fanout && Placed(R, r, mem, i, h)
    ensures Place(R, r, i) < |R| && Placed(R, r, mem[Place(R, r, i) := R[i]], i + 1, h)
  {
    PlaceInRun(R, r, i);
    SelGrowsTo(R, i, r, h);
    if h == Hash(r, R[i].key) {
      HoldsOneMore(mem, Below(R, r, h), Sel(R[..i], r, h), R[i]);
    } else {
      SameSlotSameTuple(R, r, mem, i, i, h);
    }
  }

  /** The slot of a store. */
  lemma PutSlotIs(c: Shared, s: State, k: nat)
    requires Inv(c, s) && k < |s.bs| && s.bs[k].i < |c.R|
    ensures |s.bs[k].ends| == c.r.fanout && s.bs[k].ends[Hash(c.r, c.R[s.bs[k].i].key)] == Place(c.R, c.r, s.bs[k].i) < |c.R|
  {
    assert BuilderOk(c, s.mem, s.bs[k]);
    PlaceInRun(c.R, c.r, s.bs[k].i);
  }

  lemma PutKeepsRun(c: Shared, s: State, s': State, k: nat, k': nat, h: nat)
    requires Inv(c, s) && Put(c, s, s', k) && k' < |s.bs| && h < c.r.fanout
    ensures s'.bs[k'].i <= |c.R| && Placed(c.R, c.r, s'.mem, s'.bs[k'].i, h)
  {
    var i, j := s.bs[k].i, s.bs[k'].i;
    assert BuilderOk(c, s.mem, s.bs[k']);
    PutSlotIs(c, s, k);
    assert Placed(c.R, c.r, s.mem, j, h);
    if k == k' {
      OwnPut(c.R, c.r, s.mem, i, h);
    } else {
      SameSlotSameTuple(c.R, c.r, s.mem, i, j, h);
    }
  }

  lemma PutKeepsBuilder(c: Shared, s: State, s': State, k: nat, k': nat)
    requires Inv(c, s) && Put(c, s, s', k) && k' < |s.bs|
    ensures BuilderOk(c, s'.mem, s'.bs[k'])
  {
    var i := s.bs[k].i;
    assert BuilderOk(c, s.mem, s.bs[k]) && BuilderOk(c, s.mem, s.bs[k']);
    PutSlotIs(c, s, k);
    forall h: nat | h < c.r.fanout
      ensures Placed(c.R, c.r, s'.mem, s'.bs[k'].i, h)
      ensures |Sel(c.R[..i + 1], c.r, h)| == |Sel(c.R[..i], c.r, h)| + (if h == Hash(c.r, c.R[i].key) then 1 else 0)
    {
      SelGrowsTo(c.R, i, c.r, h);
      PutKeepsRun(c, s, s', k, k', h);
    }
  }

  lemma ClearKeepsBuilder(c: Shared, s: State, s': State, k: nat, k': nat)
    requires Inv(c, s) && Clear(c, s, s', k) && k' < |s.bs|
    ensures BuilderOk(c, s'.mem, s'.bs[k'])
  {
    var i := s.bs[k'].i;
    assert BuilderOk(c, s.mem, s.bs[k']);
    forall h: nat | h < c.r.fanout
      ensures Placed(c.R, c.r, s'.mem, i, h)
    {
      assert Placed(c.R, c.r, s.mem, i, h);
      PartIsShort(c.R, i, c.r, h);
      RunBounds(c.R, c.r, h);
      HoldsElsewhere(s.mem, Below(c.R, c.r, h), Sel(c.R[..i], c.r, h), |c.R| + s.bs[k].cleared, EMPTY);
    }
  }

  lemma InitHasInv(c: Shared, s: State)
    requires Init(c, s)
    ensures Inv(c, s)
  {
    forall k: nat | k < |s.bs|
      ensures BuilderOk(c, s.mem, s.bs[k])
    {
      forall h: nat | h < c.r.fanout
        ensures Placed(c.R, c.r, s.mem, 0, h)
      {
        RunBounds(c.R, c.r, h);
      }
    }
  }

  lemma NextKeepsInv(c: Shared, s: State, s': State)
    requires Inv(c, s) && Next(c, s, s')
    ensures Inv(c, s')
  {
    var k: nat :| Builds(c, s, s', k);
    forall k': nat | k' < |s'.bs|
      ensures BuilderOk(c, s'.mem, s'.bs[k'])
    {
      if Put(c, s, s', k) {
        PutKeepsBuilder(c, s, s', k, k');
      } else {
        ClearKeepsBuilder(c, s, s', k, k');
      }
    }
  }

  lemma RunHasInv(c: Shared, tr: seq<State>, i: nat)
    requires IsRun(tr, (s: State) => Init(c, s), (s: State, s': State) => Next(c, s, s')) && i < |tr|
    ensures Inv(c, tr[i])
  {
    forall s | Init(c, s)
      ensures Inv(c, s)
    {
      InitHasInv(c, s);
    }
    forall s, s' | Inv(c, s) && Next(c, s, s')
      ensures Inv(c, s')
    {
      NextKeepsInv(c, s, s');
    }
    Invariant(tr, (s: State) => Init(c, s), (s: State, s': State) => Next(c, s, s'), (s: State) => Inv(c, s), i);
  }

  ghost function Ends(R: seq<Tuple>, r: Radix): seq<Bin> {
    seq(r.fanout, (h: nat) => Bin(|Sel(R, r, h)|, Below(R, r, h + 1)))
  }

  lemma EndsAreCounted(R: seq<Tuple>, r: Radix)
    ensures EndsCounted(Ends(R, r), R, r)
  {
  }

  lemma RunInPlace(R: seq<Tuple>, r: Radix, mem: seq<Tuple>, h: nat)
    requires Placed(R, r, mem, |R|, h)
    ensures HoldsAt(mem, ClusterBase(R, r, 0, 0, h), Sel(R, r, h))
  {
    TimesZero(h);
    assert R[..|R|] == R;
  }

  lemma DoneIsPartitioned(c: Shared, mem: seq<Tuple>, b: Builder)
    requires BuilderOk(c, mem, b) && b.i == |c.R|
    ensures Partitioned(mem, c.R, c.r, 0, 0)
  {
    forall h: nat | h < c.r.fanout
      ensures HoldsAt(mem, ClusterBase(c.R, c.r, 0, 0, h), Sel(c.R, c.r, h))
    {
      assert Placed(c.R, c.r, mem, b.i, h);
      RunInPlace(c.R, c.r, mem, h);
    }
  }

  lemma DoneIsReordered(c: Shared, mem: seq<Tuple>, b: Builder)
    requires BuilderOk(c, mem, b) && b.i == |c.R|
    ensures Reordered(mem, Ends(c.R, c.r), c.R, c.r)
  {
    DoneIsPartitioned(c, mem, b);
    EndsAreCounted(c.R, c.r);
  }

  /** From the moment a thread has finished its own build, it reads the right build side and a clear
      padding, however far the other builds are. */
  lemma OwnBuildIsEnough(c: Shared, tr: seq<State>, i: nat, k: nat)
    requires IsRun(tr, (s: State) => Init(c, s), (s: State, s': State) => Next(c, s, s'))
    requires i < |tr| && k < |tr[i].bs| && tr[i].bs[k].cleared == c.pad && tr[i].bs[k].i == |c.R|
    ensures Reordered(tr[i].mem, Ends(c.R, c.r), c.R, c.r)
    ensures |tr[i].mem| == |c.R| + c.pad && forall j: nat :: |c.R| <= j < |tr[i].mem| ==> tr[i].mem[j] == EMPTY
  {
    RunHasInv(c, tr, i);
    assert BuilderOk(c, tr[i].mem, tr[i].bs[k]);
    DoneIsReordered(c, tr[i].mem, tr[i].bs[k]);
  }

  // ----- every build comes to its end -----

  ghost predicate Built(c: Shared, b: Builder) { b.cleared == c.pad && b.i == |c.R| }

  /** A thread that has not finished its build can go on, whatever the others do. */
  lemma BuilderGoesOn(c: Shared, s: State, k: nat)
    requires Inv(c, s) && k < |s.bs| && !Built(c, s.bs[k])
    ensures exists s' :: Builds(c, s, s', k)
  {
    var b := s.bs[k];
    assert BuilderOk(c, s.mem, b);
    if b.cleared < c.pad {
      assert Builds(c, s, State.State(s.mem[|c.R| + b.cleared := EMPTY], s.bs[k := b.(cleared := b.cleared + 1)]), k);
    } else {
      PutSlotIs(c, s, k);
      var h := Hash(c.r, c.R[b.i].key);
      assert Builds(c, s, State.State(s.mem[b.ends[h] := c.R[b.i]], s.bs[k := Builder(b.cleared, b.i + 1, b.ends[h := b.ends[h] + 1])]), k);
    }
  }

  /** The slots to clear and the tuples to store. */
  function BuildLeft(c: Shared, b: Builder): nat {
    (if b.cleared < c.pad then c.pad - b.cleared else 0) + (if b.i < |c.R| then |c.R| - b.i else 0)
  }

  lemma BuildUsesOneUp(c: Shared, s: State, s': State, k: nat)
    requires Builds(c, s, s', k)
    ensures |s'.bs| == |s.bs| && s'.bs == s.bs[k := s'.bs[k]]
    ensures BuildLeft(c, s'.bs[k]) < BuildLeft(c, s.bs[k])
  {
  }

  function BuildsLeft(c: Shared, bs: seq<Builder>): nat -> nat {
    (k: nat) => if k < |bs| then BuildLeft(c, bs[k]) else 0
  }

  /** No run of the builds is longer than what all threads have to clear and to store. */
  lemma RunsEnd(c: Shared, tr: seq<State>)
    requires IsRun(tr, (s: State) => Init(c, s), (s: State, s': State) => Next(c, s, s'))
    ensures |tr| - 1 <= Times(c.threads, c.pad + |c.R|)
  {
    forall s: State, s': State | |s.bs| == c.threads && Next(c, s, s')
      ensures |s'.bs| == c.threads && SumTo(BuildsLeft(c, s'.bs), c.threads) < SumTo(BuildsLeft(c, s.bs), c.threads)
    {
      var k: nat :| Builds(c, s, s', k);
      BuildUsesOneUp(c, s, s', k);
      SumToDrops(BuildsLeft(c, s.bs), BuildsLeft(c, s'.bs), k, c.threads);
    }
    Bounded(tr, (s: State) => Init(c, s), (s: State, s': State) => Next(c, s, s'), (s: State) => |s.bs| == c.threads,
            (s: State) => SumTo(BuildsLeft(c, s.bs), c.threads), |tr| - 1);
    SumToAtMost(BuildsLeft(c, tr[0].bs), c.pad + |c.R|, c.threads);
  }
}
