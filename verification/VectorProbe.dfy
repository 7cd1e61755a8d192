/** `hro_join`: the histogram join with a probe that compares four tuples at a time.  A vector has
    eight 64-bit lanes, so a window of four tuples is four keys and four row ids, side by side; the
    last window of a run reads past the run, and even past the relation. */
module VectorProbe {
  import opened Bits
  import opened Relations
  import opened Offsets
  import opened Partitioning
  import opened PlainScatter
  import opened Accumulators
  import opened HistogramJoin

  // ----- vectors -----

  type Vec = v: seq<nat> | |v| == 8 witness [0, 0, 0, 0, 0, 0, 0, 0]
  type Mask = m: seq<bool> | |m| == 8 witness [false, false, false, false, false, false, false, false]

  function Set1(x: nat): Vec { seq(8, _ => x) }

  /** Four tuples in memory order. */
  function Load(win: seq<Tuple>): Vec
    requires |win| == 4
  {
    [win[0].key, win[0].rowId, win[1].key, win[1].rowId, win[2].key, win[2].rowId, win[3].key, win[3].rowId]
  }

  function CmpEq(a: Vec, b: Vec): Mask { seq(8, (j: nat) requires j < 8 => a[j] == b[j]) }

  /** `mask << 1` in an 8-bit mask: the top lane is dropped. */
  function ShiftUp(m: Mask): Mask { seq(8, (j: nat) requires j < 8 => j > 0 && m[j - 1]) }

  function MaskAdd(src: Vec, m: Mask, a: Vec, b: Vec): Vec {
    seq(8, (j: nat) requires j < 8 => if m[j] then Word(a[j] + b[j]) else src[j])
  }

  function MaskzAdd(m: Mask, a: Vec, b: Vec): Vec { MaskAdd(Set1(0), m, a, b) }

  /** The two vector accumulators. */
  datatype Lanes = Lanes(count: Vec, sum: Vec)

  /** One pass of the inner loop.  Row-id lanes are compared with the key as well. */
  function Compare(v: Lanes, win: seq<Tuple>, s: Tuple): Lanes
    requires |win| == 4
  {
    var tuples := Load(win);
    var hits := CmpEq(Set1(s.key), tuples);
    var sums := MaskzAdd(ShiftUp(hits), tuples, Set1(s.rowId));
    Lanes(MaskAdd(v.count, hits, v.count, Set1(1)), MaskAdd(v.sum, ShiftUp(hits), v.sum, sums))
  }

  /** The final extraction: even lanes of one accumulator, odd lanes of the other. */
  function Extract(v: Lanes): Totals {
    Totals(Word(v.count[0] + v.count[2] + v.count[4] + v.count[6]),
           Word(v.sum[1] + v.sum[3] + v.sum[5] + v.sum[7]))
  }

  /** What one tuple of the window does to its own pair of lanes. */
  lemma PairLanes(v: Lanes, win: seq<Tuple>, s: Tuple, i: nat)
    requires |win| == 4 && i < 4
    ensures var v' := Compare(v, win, s);
      var flag := if win[i].key == s.key then 1 else 0;
      && Word(v'.count[2 * i]) == Word(v.count[2 * i] + flag)
      && Word(v'.sum[2 * i + 1]) == Word(v.sum[2 * i + 1] + (if flag == 1 then win[i].rowId + s.rowId else 0))
  {
    var tuples := Load(win);
    var hits := CmpEq(Set1(s.key), tuples);
    assert tuples[2 * i] == win[i].key && tuples[2 * i + 1] == win[i].rowId;
    assert hits[2 * i] == (win[i].key == s.key) == ShiftUp(hits)[2 * i + 1];
    WordPlus(v.count[2 * i] + 1, 0);
    WordPlus(v.sum[2 * i + 1], win[i].rowId + s.rowId);
    WordPlus(Word(v.sum[2 * i + 1] + Word(win[i].rowId + s.rowId)), 0);
    WordPlus(win[i].rowId + s.rowId, v.sum[2 * i + 1]);
  }

  /** Numbers that a `size_t` cannot tell apart have sums that it cannot tell apart. */
  lemma SameSum(a: nat, b: nat, c: nat, d: nat)
    requires Word(a) == Word(c) && Word(b) == Word(d)
    ensures Word(a + b) == Word(c + d)
  {
    WordPlus(a, b);
    WordPlus(c, d);
  }

  function WindowWeight(w: Measure, win: seq<Tuple>, s: Tuple): nat
    requires |win| == 4
  {
    Weight(w, win[0], s) + Weight(w, win[1], s) + Weight(w, win[2], s) + Weight(w, win[3], s)
  }

  /** The numbers of the window, by measure. */
  lemma FourProbe(w: Measure, seen: seq<Tuple>, win: seq<Tuple>, s: Tuple)
    requires |win| == 4
    ensures ProbeOne(w, seen + win, s)
         == ProbeOne(w, seen, s) + WindowWeight(w, win, s)
  {
    ProbeSnoc(w, seen, win[0], s);
    ProbeSnoc(w, seen + [win[0]], win[1], s);
    ProbeSnoc(w, seen + [win[0]] + [win[1]], win[2], s);
    ProbeSnoc(w, seen + [win[0]] + [win[1]] + [win[2]], win[3], s);
    assert seen + win == seen + [win[0]] + [win[1]] + [win[2]] + [win[3]];
  }

  lemma FourLanes(m: nat, f: nat, a0: nat, a1: nat, a2: nat, a3: nat, f0: nat, f1: nat, f2: nat, f3: nat,
                  b0: nat, b1: nat, b2: nat, b3: nat)
    requires Word(b0) == Word(a0 + f0) && Word(b1) == Word(a1 + f1)
    requires Word(b2) == Word(a2 + f2) && Word(b3) == Word(a3 + f3)
    requires Word(a0 + a1 + a2 + a3) == Word(m) && f == f0 + f1 + f2 + f3
    ensures Word(b0 + b1 + b2 + b3) == Word(m + f)
  {
    SameSum(b0, b1, a0 + f0, a1 + f1);
    SameSum(b0 + b1, b2, a0 + f0 + (a1 + f1), a2 + f2);
    SameSum(b0 + b1 + b2, b3, a0 + f0 + (a1 + f1) + (a2 + f2), a3 + f3);
    SameSum(a0 + a1 + a2 + a3, f, m, f);
    Reorder(a0, a1, a2, a3, f0, f1, f2, f3);
  }

  lemma Reorder(a0: nat, a1: nat, a2: nat, a3: nat, f0: nat, f1: nat, f2: nat, f3: nat)
    ensures a0 + f0 + (a1 + f1) + (a2 + f2) + (a3 + f3) == a0 + a1 + a2 + a3 + (f0 + f1 + f2 + f3)
  {
  }

  /** What a window does to the lanes that are extracted. */
  ghost predicate Grown(v: Lanes, v': Lanes, win: seq<Tuple>, s: Tuple, i: nat)
    requires |win| == 4 && i < 4
  {
    && Word(v'.count[2 * i]) == Word(v.count[2 * i] + Weight(Matched, win[i], s))
    && Word(v'.sum[2 * i + 1]) == Word(v.sum[2 * i + 1] + Weight(Checksum, win[i], s))
  }

  lemma CountLanes(v: Lanes, v': Lanes, win: seq<Tuple>, s: Tuple, m: nat)
    requires |win| == 4 && Extract(v).matched == Word(m)
    requires Grown(v, v', win, s, 0) && Grown(v, v', win, s, 1) && Grown(v, v', win, s, 2) && Grown(v, v', win, s, 3)
    ensures Extract(v').matched == Word(m + WindowWeight(Matched, win, s))
  {
    FourLanes(m, WindowWeight(Matched, win, s), v.count[0], v.count[2], v.count[4], v.count[6],
      Weight(Matched, win[0], s), Weight(Matched, win[1], s), Weight(Matched, win[2], s), Weight(Matched, win[3], s),
      v'.count[0], v'.count[2], v'.count[4], v'.count[6]);
  }

  lemma SumLanes(v: Lanes, v': Lanes, win: seq<Tuple>, s: Tuple, c: nat)
    requires |win| == 4 && Extract(v).checksum == Word(c)
    requires Grown(v, v', win, s, 0) && Grown(v, v', win, s, 1) && Grown(v, v', win, s, 2) && Grown(v, v', win, s, 3)
    ensures Extract(v').checksum == Word(c + WindowWeight(Checksum, win, s))
  {
    FourLanes(c, WindowWeight(Checksum, win, s), v.sum[1], v.sum[3], v.sum[5], v.sum[7],
      Weight(Checksum, win[0], s), Weight(Checksum, win[1], s), Weight(Checksum, win[2], s), Weight(Checksum, win[3], s),
      v'.sum[1], v'.sum[3], v'.sum[5], v'.sum[7]);
  }

  lemma LanesGrow(v: Lanes, win: seq<Tuple>, s: Tuple, i: nat)
    requires |win| == 4 && i < 4
    ensures Grown(v, Compare(v, win, s), win, s, i)
  {
    PairLanes(v, win, s, i);
  }

  /** Matches against row ids land in lanes that are never extracted: a window adds exactly its
      four tuples. */
  lemma WindowAdds(v: Lanes, win: seq<Tuple>, s: Tuple, m: nat, c: nat)
    requires |win| == 4 && Extract(v) == Sums(m, c)
    ensures Extract(Compare(v, win, s)) == Sums(m + WindowWeight(Matched, win, s), c + WindowWeight(Checksum, win, s))
  {
    var v' := Compare(v, win, s);
    LanesGrow(v, win, s, 0);
    LanesGrow(v, win, s, 1);
    LanesGrow(v, win, s, 2);
    LanesGrow(v, win, s, 3);
    CountLanes(v, v', win, s, m);
    SumLanes(v, v', win, s, c);
  }

  lemma PartlyWindow(v: Lanes, R: seq<Tuple>, S: seq<Tuple>, seen: seq<Tuple>, win: seq<Tuple>, s: Tuple)
    requires |win| == 4 && Partly(Extract(v), R, S, seen, s)
    ensures Partly(Extract(Compare(v, win, s)), R, S, seen + win, s)
  {
    WindowAdds(v, win, s, NestedLoop(Matched, R, S) + ProbeOne(Matched, seen, s),
                          NestedLoop(Checksum, R, S) + ProbeOne(Checksum, seen, s));
    FourProbe(Matched, seen, win, s);
    FourProbe(Checksum, seen, win, s);
  }

  // ----- what the windows cover -----

  /** Where the windows over `lo .. hi` end. */
  function WindowsEnd(lo: nat, hi: nat): (e: nat)
    ensures lo >= hi ==> e == lo
    ensures lo < hi ==> hi <= e <= hi + 3
    decreases hi - lo
  {
    if lo < hi then WindowsEnd(lo + 4, hi) else lo
  }

  lemma {:induction false} WindowsEndAt(lo: nat, hi: nat)
    requires lo <= hi
    ensures WindowsEnd(lo, hi) == lo + (hi - lo + 3) / 4 * 4
    decreases hi - lo
  {
    if lo < hi && lo + 4 <= hi {
      WindowsEndAt(lo + 4, hi);
    } else if lo < hi {
      assert WindowsEnd(lo + 4, hi) == lo + 4;
    }
  }

  function Zeros(n: nat): seq<Tuple> { seq(n, _ => EMPTY) }

  /** Past the relation by how much? */
  function Over(R: seq<Tuple>, e: nat): nat { if e > |R| then e - |R| else 0 }

  /** How many padding tuples a probe for key 0 compares with: those between the end of the relation
      and the end of the windows over the run of key 0. */
  function Excess(R: seq<Tuple>, r: Radix): (e: nat)
    ensures e <= 3
  {
    var h := Hash(r, 0);
    RunBounds(R, r, h);
    Over(R, WindowsEnd(Below(R, r, h), Below(R, r, h + 1)))
  }

  /** The relation that the kernel really joins with. */
  function Widened(R: seq<Tuple>, r: Radix): seq<Tuple> {
    R + Zeros(Excess(R, r))
  }

  /** The reordered build side, with four zeroed tuples behind it. */
  ghost predicate Padded(mem: seq<Tuple>, ends: seq<Bin>, R: seq<Tuple>, r: Radix) {
    && Reordered(mem, ends, R, r) && |R| + 4 <= |mem|
    && forall j: nat :: |R| <= j < |R| + 4 ==> mem[j] == EMPTY
  }

  lemma SlotOfRun(mem: seq<Tuple>, ends: seq<Bin>, R: seq<Tuple>, r: Radix, p: nat, q: nat)
    requires Reordered(mem, ends, R, r) && p < r.fanout && Below(R, r, p) <= q < Below(R, r, p + 1)
    ensures q < |R| && Hash(r, mem[q].key) == p
  {
    RunHolds(mem, ends, R, r, p);
    var lo, hi := Below(R, r, p), Below(R, r, p + 1);
    SelMember(R, r, p, q - lo);
    SliceAt(mem, lo, hi, q);
  }

  lemma SliceAt(mem: seq<Tuple>, lo: nat, hi: nat, q: nat)
    requires lo <= q < hi <= |mem|
    ensures mem[q] == mem[lo..hi][q - lo]
  {
  }

  /** Behind a run there are only tuples of other runs. */
  lemma {:induction false} SlotBelongs(mem: seq<Tuple>, ends: seq<Bin>, R: seq<Tuple>, r: Radix, h: nat, n: nat, q: nat)
    requires Reordered(mem, ends, R, r) && h < n <= r.fanout && Below(R, r, h + 1) <= q < Below(R, r, n) && q < |mem|
    ensures Hash(r, mem[q].key) != h
  {
    var m := n - 1;
    if q < Below(R, r, m) {
      SlotBelongs(mem, ends, R, r, h, m, q);
    } else {
      assert h != m;
      SlotOfRun(mem, ends, R, r, m, q);
    }
  }

  /** What a probe for this key finds: its run, and behind the run only other keys. */
  ghost predicate Around(mem: seq<Tuple>, R: seq<Tuple>, r: Radix, s: Tuple, lo: nat, hi: nat) {
    && lo <= hi <= |R| && |R| + 4 <= |mem|
    && mem[lo..hi] == Sel(R, r, Hash(r, s.key))
    && (forall j: nat :: hi <= j < |R| ==> mem[j].key != s.key)
    && (forall j: nat :: |R| <= j < |R| + 4 ==> mem[j] == EMPTY)
  }

  lemma RunIsAround(mem: seq<Tuple>, ends: seq<Bin>, R: seq<Tuple>, r: Radix, s: Tuple)
    requires Padded(mem, ends, R, r)
    ensures var h := Hash(r, s.key);
      && RunStart(ends, h) == Below(R, r, h) && ends[h].prefix == Below(R, r, h + 1)
      && Around(mem, R, r, s, RunStart(ends, h), ends[h].prefix)
  {
    var h := Hash(r, s.key);
    RunHolds(mem, ends, R, r, h);
    BelowAll(R, r);
    forall j: nat | Below(R, r, h + 1) <= j < |R|
      ensures mem[j].key != s.key
    {
      SlotBelongs(mem, ends, R, r, h, r.fanout, j);
    }
  }

  lemma {:induction false} ProbeNothing(w: Measure, rel: seq<Tuple>, s: Tuple)
    requires forall j: nat :: j < |rel| ==> rel[j].key != s.key
    ensures ProbeOne(w, rel, s) == 0
  {
    if rel != [] {
      ProbeNothing(w, rel[..|rel| - 1], s);
    }
  }

  lemma RunAndBehind(mem: seq<Tuple>, R: seq<Tuple>, r: Radix, s: Tuple, lo: nat, hi: nat, e: nat, w: Measure)
    requires Around(mem, R, r, s, lo, hi) && hi <= e <= |R|
    ensures ProbeOne(w, mem[lo..e], s) == ProbeOne(w, R, s)
  {
    ProbeSel(w, R, r, Hash(r, s.key), s);
    ProbeNothing(w, mem[hi..e], s);
    assert mem[lo..e] == mem[lo..hi] + mem[hi..e];
    ProbeConcat(w, mem[lo..hi], mem[hi..e], s);
  }

  /** The windows of a probe see the relation, as far as the key is concerned, and the padding that
      they reach. */
  lemma WindowsAreEnough(mem: seq<Tuple>, R: seq<Tuple>, r: Radix, s: Tuple, lo: nat, hi: nat, e: nat, w: Measure)
    requires Around(mem, R, r, s, lo, hi) && |R| <= e <= |R| + 3
    ensures ProbeOne(w, mem[lo..e], s) == ProbeOne(w, R + Zeros(e - |R|), s)
  {
    RunAndBehind(mem, R, r, s, lo, hi, |R|, w);
    SplitAtEnd(mem, |R|, lo, e);
    ProbeConcat(w, mem[lo..|R|], Zeros(e - |R|), s);
    ProbeConcat(w, R, Zeros(e - |R|), s);
  }

  lemma SplitAtEnd(mem: seq<Tuple>, n: nat, lo: nat, e: nat)
    requires lo <= n <= e <= |mem| && forall j: nat :: n <= j < e ==> mem[j] == EMPTY
    ensures mem[lo..e] == mem[lo..n] + Zeros(e - n)
  {
  }

  /** For a key other than 0, padding does not matter. */
  lemma ZerosFindNothing(w: Measure, R: seq<Tuple>, n: nat, s: Tuple)
    requires s.key != 0
    ensures ProbeOne(w, R + Zeros(n), s) == ProbeOne(w, R, s)
  {
    ProbeConcat(w, R, Zeros(n), s);
    ProbeNothing(w, Zeros(n), s);
  }

  // ----- the kernel -----

  /** One tuple of the probe side against all windows of its run. */
  method ProbeWindows(out: array<Tuple>, lo: nat, hi: nat, s: Tuple, v0: Lanes, ghost R: seq<Tuple>, ghost S: seq<Tuple>)
    returns (v: Lanes)
    requires lo <= hi && hi + 4 <= out.Length && Partly(Extract(v0), R, S, [], s)
    ensures Partly(Extract(v), R, S, out[lo..WindowsEnd(lo, hi)], s)
  {
    var start := lo;
    v := v0;
    while start < hi
      invariant lo <= start <= hi + 3 && WindowsEnd(start, hi) == WindowsEnd(lo, hi)
      invariant Partly(Extract(v), R, S, out[lo..start], s)
    {
      PartlyWindow(v, R, S, out[lo..start], out[start..start + 4], s);
      assert out[lo..start + 4] == out[lo..start] + out[start..start + 4];
      v := Compare(v, out[start..start + 4], s);
      start := start + 4;
    }
  }

  lemma NoZeros(R: seq<Tuple>)
    ensures R + Zeros(0) == R
  {
  }

  lemma AnyWindows(mem: seq<Tuple>, R: seq<Tuple>, r: Radix, s: Tuple, lo: nat, hi: nat, w: Measure)
    requires Around(mem, R, r, s, lo, hi)
    ensures ProbeOne(w, mem[lo..WindowsEnd(lo, hi)], s) == ProbeOne(w, R + Zeros(Over(R, WindowsEnd(lo, hi))), s)
  {
    var e := WindowsEnd(lo, hi);
    if e <= |R| {
      RunAndBehind(mem, R, r, s, lo, hi, e, w);
      NoZeros(R);
    } else {
      WindowsAreEnough(mem, R, r, s, lo, hi, e, w);
    }
  }

  /** What the windows of a probe for `s` see is what `rel` holds for its key. */
  ghost predicate Answers(mem: seq<Tuple>, ends: seq<Bin>, r: Radix, rel: seq<Tuple>, s: Tuple)
    requires |ends| == r.fanout
  {
    var h := Hash(r, s.key);
    var lo, hi := RunStart(ends, h), ends[h].prefix;
    && lo <= hi && hi + 4 <= |mem|
    && forall w :: ProbeOne(w, mem[lo..WindowsEnd(lo, hi)], s) == ProbeOne(w, rel, s)
  }

  datatype View = View(mem: seq<Tuple>, ends: seq<Bin>, r: Radix, rel: seq<Tuple>)

  ghost predicate AnswersAll(t: View) {
    |t.ends| == t.r.fanout && forall s :: Answers(t.mem, t.ends, t.r, t.rel, s)
  }

  lemma NothingAnswers(t: View)
    requires t.ends == [Bin(0, 0)] && t.mem == Zeros(4) && t.rel == [] && t.r.fanout == 1
    ensures AnswersAll(t)
  {
    forall s
      ensures Answers(t.mem, t.ends, t.r, t.rel, s)
    {
    }
  }

  ghost function NoView(): View {
    View(Zeros(4), [Bin(0, 0)], Radix(1, 0), [])
  }

  /** The array, the ends of the runs, and the relation that they answer for. */
  type Table = t: View | AnswersAll(t)
    ghost witness (NothingAnswers(NoView()); NoView())

  lemma AllWindows(mem: seq<Tuple>, ends: seq<Bin>, R: seq<Tuple>, r: Radix, s: Tuple)
    requires Padded(mem, ends, R, r)
    ensures Answers(mem, ends, r, Widened(R, r), s)
  {
    var h := Hash(r, s.key);
    var lo, hi := RunStart(ends, h), ends[h].prefix;
    RunIsAround(mem, ends, R, r, s);
    forall w
      ensures ProbeOne(w, mem[lo..WindowsEnd(lo, hi)], s) == ProbeOne(w, Widened(R, r), s)
    {
      AnyWindows(mem, R, r, s, lo, hi, w);
      var over := Over(R, WindowsEnd(lo, hi));
      if s.key == 0 {
        assert over == Excess(R, r);
      } else {
        ZerosFindNothing(w, R, over, s);
        ZerosFindNothing(w, R, Excess(R, r), s);
      }
    }
  }

  lemma PaddedIsTable(mem: seq<Tuple>, ends: seq<Bin>, R: seq<Tuple>, r: Radix)
    requires Padded(mem, ends, R, r)
    ensures AnswersAll(View(mem, ends, r, Widened(R, r)))
  {
    forall s
      ensures Answers(mem, ends, r, Widened(R, r), s)
    {
      AllWindows(mem, ends, R, r, s);
    }
  }

  method ProbeTuple(out: array<Tuple>, hist: array<Bin>, r: Radix, s: Tuple, h: nat, v0: Lanes, ghost t: Table, ghost done: seq<Tuple>)
    returns (v: Lanes)
    requires h == Hash(r, s.key) && out[..] == t.mem && hist[..] == t.ends && r == t.r && IsJoin(Extract(v0), t.rel, done)
    ensures IsJoin(Extract(v), t.rel, done + [s])
  {
    ghost var S, i := done + [s], |done|;
    assert S[..i] == done && S[..i + 1] == S;
    assert Answers(t.mem, t.ends, r, t.rel, s);
    var start, end := RunStart(hist[..], h), hist[h].prefix;
    PartlyStart(Extract(v0), t.rel, done, s);
    v := ProbeWindows(out, start, end, s, v0, t.rel, done);
    ghost var seen := out[..][start..WindowsEnd(start, end)];
    assert out[start..WindowsEnd(start, end)] == seen;
    PartlyEnd(Extract(v), t.rel, S, seen, i);
  }

  ghost predicate Filled(S: seq<Tuple>, r: Radix, at: nat, keys: seq<nat>, rowIds: seq<nat>, hashes: seq<nat>, n: nat) {
    && at + n <= |S| && n <= |keys| == |rowIds| == |hashes| == 8
    && forall j: nat :: j < n ==> S[at + j] == Tuple(keys[j], rowIds[j]) && hashes[j] == Hash(r, keys[j])
  }

  lemma FilledAt(S: seq<Tuple>, r: Radix, at: nat, keys: seq<nat>, rowIds: seq<nat>, hashes: seq<nat>, n: nat, j: nat)
    requires Filled(S, r, at, keys, rowIds, hashes, n) && j < n
    ensures hashes[j] == Hash(r, keys[j])
    ensures S[..at + j + 1] == S[..at + j] + [Tuple(keys[j], rowIds[j])]
  {
    Snoc(S, at + j);
  }

  /** The three buffers of a group of four tuples. */
  method FillBuffers(S: seq<Tuple>, r: Radix, at: nat, keys: array<nat>, rowIds: array<nat>, hashes: array<nat>)
    requires at + 4 <= |S| && keys.Length == rowIds.Length == hashes.Length == 8
    requires keys != rowIds && rowIds != hashes && hashes != keys
    modifies keys, rowIds, hashes
    ensures Filled(S, r, at, keys[..], rowIds[..], hashes[..], 4)
  {
    for jdx := 0 to 4
      invariant Filled(S, r, at, keys[..], rowIds[..], hashes[..], jdx)
    {
      keys[jdx] := S[at + jdx].key;
      rowIds[jdx] := S[at + jdx].rowId;
      hashes[jdx] := Hash(r, keys[jdx]);
    }
  }

  method ProbeGroup(out: array<Tuple>, hist: array<Bin>, S: seq<Tuple>, r: Radix, at: nat,
                    keys: array<nat>, rowIds: array<nat>, hashes: array<nat>, v0: Lanes, ghost t: Table) returns (v: Lanes)
    requires Filled(S, r, at, keys[..], rowIds[..], hashes[..], 4)
    requires out[..] == t.mem && hist[..] == t.ends && r == t.r && IsJoin(Extract(v0), t.rel, S[..at])
    ensures IsJoin(Extract(v), t.rel, S[..at + 4])
  {
    v := v0;
    for jdx := 0 to 4
      invariant IsJoin(Extract(v), t.rel, S[..at + jdx])
    {
      FilledAt(S, r, at, keys[..], rowIds[..], hashes[..], 4, jdx);
      v := ProbeTuple(out, hist, r, Tuple(keys[jdx], rowIds[jdx]), hashes[jdx], v, t, S[..at + jdx]);
    }
  }

  lemma NothingExtracted(rel: seq<Tuple>, S: seq<Tuple>)
    ensures IsJoin(Extract(Lanes(Set1(0), Set1(0))), rel, S[..0])
  {
    PartlyZero(rel);
    assert S[..0] == [];
  }

  method ProbeGroups(out: array<Tuple>, hist: array<Bin>, S: seq<Tuple>, r: Radix, groups: nat, ghost t: Table)
    returns (v: Lanes)
    requires out[..] == t.mem && hist[..] == t.ends && r == t.r && groups * 4 <= |S|
    ensures IsJoin(Extract(v), t.rel, S[..groups * 4])
  {
    var keys, rowIds, hashes := new nat[8], new nat[8], new nat[8];
    v := Lanes(Set1(0), Set1(0));
    NothingExtracted(t.rel, S);
    for idx := 0 to groups
      invariant out[..] == t.mem && hist[..] == t.ends && r == t.r
      invariant IsJoin(Extract(v), t.rel, S[..idx * 4])
    {
      FillBuffers(S, r, idx * 4, keys, rowIds, hashes);
      v := ProbeGroup(out, hist, S, r, idx * 4, keys, rowIds, hashes, v, t);
    }
  }

  lemma OneMore(S: seq<Tuple>, i: nat)
    requires i < |S|
    ensures S[..i + 1] == S[..i] + [S[i]]
  {
  }

  method ProbeAt(out: array<Tuple>, hist: array<Bin>, S: seq<Tuple>, r: Radix, i: nat, v0: Lanes, ghost t: Table) returns (v: Lanes)
    requires out[..] == t.mem && hist[..] == t.ends && r == t.r && i < |S| && IsJoin(Extract(v0), t.rel, S[..i])
    ensures IsJoin(Extract(v), t.rel, S[..i + 1])
  {
    OneMore(S, i);
    v := ProbeTuple(out, hist, r, S[i], Hash(r, S[i].key), v0, t, S[..i]);
  }

  method ProbeRest(out: array<Tuple>, hist: array<Bin>, S: seq<Tuple>, r: Radix, from: nat, v0: Lanes, ghost t: Table)
    returns (v: Lanes)
    requires out[..] == t.mem && hist[..] == t.ends && r == t.r && from <= |S| && IsJoin(Extract(v0), t.rel, S[..from])
    ensures IsJoin(Extract(v), t.rel, S[..|S|])
  {
    v := v0;
    for idx := from to |S|
      invariant IsJoin(Extract(v), t.rel, S[..idx])
    {
      v := ProbeAt(out, hist, S, r, idx, v, t);
    }
  }

  method ProbeAll(out: array<Tuple>, hist: array<Bin>, S: seq<Tuple>, r: Radix, ghost t: Table) returns (acc: Totals)
    requires out[..] == t.mem && hist[..] == t.ends && r == t.r
    ensures IsJoin(acc, t.rel, S)
  {
    var groups := |S| / 4;
    var v := ProbeGroups(out, hist, S, r, groups, t);
    assert |S| - |S| % 4 == groups * 4;
    v := ProbeRest(out, hist, S, r, |S| - |S| % 4, v, t);
    acc := Extract(v);
    WholeJoin(acc, t.rel, S);
  }

  method ClearPadding(out: array<Tuple>, n: nat)
    requires n + 4 <= out.Length
    modifies out
    ensures forall j: nat :: n <= j < n + 4 ==> out[j] == EMPTY
    ensures SameOutside(old(out[..]), out[..], n, n + 4)
  {
    for jdx := 0 to 4
      invariant forall j: nat :: n <= j < n + jdx ==> out[j] == EMPTY
      invariant SameOutside(old(out[..]), out[..], n, n + 4)
    {
      out[n + jdx] := EMPTY;
    }
  }

  /** The kernel: the nested-loop join of the widened build side, for all inputs. */
  method HroJoin(R: seq<Tuple>, S: seq<Tuple>, r: Radix, out: array<Tuple>) returns (acc: Totals)
    requires |R| + 4 <= out.Length
    modifies out
    ensures IsJoin(acc, Widened(R, r), S)
    ensures SameOutside(old(out[..]), out[..], 0, |R| + 4)
  {
    ClearPadding(out, |R|);
    ghost var cleared := out[..];
    var hist := BuildRuns(R, r, out);
    assert forall j: nat :: |R| <= j < |R| + 4 ==> out[..][j] == cleared[j] == EMPTY;
    PaddedIsTable(out[..], hist[..], R, r);
    acc := ProbeAll(out, hist, S, r, View(out[..], hist[..], r, Widened(R, r)));
  }

  // ----- when that is the join of the relations -----

  function ZeroKeys(S: seq<Tuple>): nat {
    if S == [] then 0 else ZeroKeys(S[..|S| - 1]) + (if S[|S| - 1].key == 0 then 1 else 0)
  }

  lemma {:induction false} ZerosMatch(n: nat, s: Tuple)
    ensures ProbeOne(Matched, Zeros(n), s) == if s.key == 0 then n else 0
  {
    if n > 0 {
      ZerosMatch(n - 1, s);
      assert Zeros(n)[..n - 1] == Zeros(n - 1);
    }
  }

  /** Every probe tuple with key 0 counts the padding that the windows reach. */
  lemma {:induction false} WidenedCounts(R: seq<Tuple>, S: seq<Tuple>, n: nat)
    ensures NestedLoop(Matched, R + Zeros(n), S) == NestedLoop(Matched, R, S) + Times(ZeroKeys(S), n)
  {
    if S != [] {
      WidenedCounts(R, S[..|S| - 1], n);
      ProbeConcat(Matched, R, Zeros(n), S[|S| - 1]);
      ZerosMatch(n, S[|S| - 1]);
    }
  }

  lemma {:induction false} NonzeroKeysJoin(w: Measure, R: seq<Tuple>, S: seq<Tuple>, n: nat)
    requires ZeroKeys(S) == 0
    ensures NestedLoop(w, R + Zeros(n), S) == NestedLoop(w, R, S)
  {
    if S != [] {
      NonzeroKeysJoin(w, R, S[..|S| - 1], n);
      ZerosFindNothing(w, R, n, S[|S| - 1]);
    }
  }

  lemma {:induction false} FewZeroKeys(S: seq<Tuple>)
    ensures ZeroKeys(S) <= |S|
  {
    if S != [] {
      FewZeroKeys(S[..|S| - 1]);
    }
  }

  lemma WordMoves(m: nat, d: nat)
    requires 0 < d < WORD
    ensures Word(m + d) != Word(m)
  {
    WordPlus(m, d);
    var x := Word(m);
    if x + d >= WORD {
      RemainderUnique(x + d, WORD, 1, x + d - WORD);
    }
  }

  /** Up to three padding tuples for every probe tuple with key 0 do not go around the counter. */
  lemma PaddingFits(z: nat, e: nat)
    requires 0 < z < WORD / 4 && 1 <= e <= 3
    ensures 0 < Times(z, e) < WORD
  {
    if e == 1 {
      TimesIsProduct(z, 1);
    } else if e == 2 {
      TimesIsProduct(z, 2);
    } else {
      TimesIsProduct(z, 3);
    }
  }

  lemma WidenedCountsMore(acc: Totals, R: seq<Tuple>, S: seq<Tuple>, e: nat)
    requires IsJoin(acc, R + Zeros(e), S) && |S| < WORD / 4 && 1 <= e <= 3 && 0 < ZeroKeys(S)
    ensures !IsJoin(acc, R, S)
  {
    WidenedCounts(R, S, e);
    FewZeroKeys(S);
    PaddingFits(ZeroKeys(S), e);
    WordMoves(NestedLoop(Matched, R, S), Times(ZeroKeys(S), e));
  }

  lemma WidenedIsTheJoin(acc: Totals, R: seq<Tuple>, S: seq<Tuple>, e: nat)
    requires IsJoin(acc, R + Zeros(e), S) && |S| < WORD / 4 && e <= 3
    ensures IsJoin(acc, R, S) <==> (ZeroKeys(S) == 0 || e == 0)
  {
    if ZeroKeys(S) == 0 {
      NonzeroKeysJoin(Matched, R, S, e);
      NonzeroKeysJoin(Checksum, R, S, e);
    } else if e == 0 {
      NoZeros(R);
    } else {
      WidenedCountsMore(acc, R, S, e);
    }
  }

  /** The kernel is right exactly when the probe side has no key 0, or the windows over the run of
      key 0 end inside the relation. */
  lemma HroIsTheJoin(acc: Totals, R: seq<Tuple>, S: seq<Tuple>, r: Radix)
    requires IsJoin(acc, Widened(R, r), S) && |S| < WORD / 4
    ensures IsJoin(acc, R, S) <==> (ZeroKeys(S) == 0 || Excess(R, r) == 0)
  {
    WidenedIsTheJoin(acc, R, S, Excess(R, r));
  }
}
