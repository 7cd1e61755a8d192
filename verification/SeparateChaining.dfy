/** `sc_join`: separate chaining with overflow buckets from a pool as large as the table itself. */
module SeparateChaining {
  import opened Bits
  import opened Relations
  import opened Offsets
  import opened Accumulators
  import opened Chains

  /** The chain holds the tuples of its hash value. */
  ghost predicate ChainHolds(bs: seq<Bucket>, cap: nat, chain: seq<nat>, rel: seq<Tuple>, r: Radix, h: nat) {
    ChainOk(bs, cap, chain, h) && multiset(Content(bs, chain)) == multiset(Sel(rel, r, h))
  }

  ghost predicate AllHold(bs: seq<Bucket>, cap: nat, chains: seq<seq<nat>>, rel: seq<Tuple>, r: Radix) {
    && |chains| == r.fanout
    && forall h: nat {:trigger ChainHolds(bs, cap, chains[h], rel, r, h)} ::
         h < r.fanout ==> ChainHolds(bs, cap, chains[h], rel, r, h)
  }

  /** The table after inserting `rel`. */
  ghost predicate Built(bs: seq<Bucket>, cap: nat, chains: seq<seq<nat>>, used: nat, rel: seq<Tuple>, r: Radix) {
    Table(bs, cap, chains, used) && AllHold(bs, cap, chains, rel, r)
  }

  lemma InsertHolds(bs: seq<Bucket>, cap: nat, chains: seq<seq<nat>>, used: nat, rel: seq<Tuple>, r: Radix, x: Tuple, g: nat)
    requires Built(bs, cap, chains, used, rel, r) && used < |bs| && g < r.fanout
    ensures var h := Hash(r, x.key);
      ChainHolds(Insert(bs, cap, h, used, x), cap, GrownChains(bs, cap, chains, used, h)[g], rel + [x], r, g)
  {
    var h := Hash(r, x.key);
    assert ChainHolds(bs, cap, chains[g], rel, r, g);
    SelSnoc(rel, x, r, g);
    if g == h {
      InsertOwn(bs, cap, chains, used, h, x);
    } else {
      InsertElsewhere(bs, cap, chains, used, h, g, x);
    }
  }

  lemma InsertHoldsAll(bs: seq<Bucket>, cap: nat, chains: seq<seq<nat>>, used: nat, rel: seq<Tuple>, r: Radix, x: Tuple)
    requires Built(bs, cap, chains, used, rel, r) && used < |bs|
    ensures var h := Hash(r, x.key);
      AllHold(Insert(bs, cap, h, used, x), cap, GrownChains(bs, cap, chains, used, h), rel + [x], r)
  {
    var h := Hash(r, x.key);
    var bs', chains' := Insert(bs, cap, h, used, x), GrownChains(bs, cap, chains, used, h);
    forall g: nat | g < r.fanout
      ensures ChainHolds(bs', cap, chains'[g], rel + [x], r, g)
    {
      InsertHolds(bs, cap, chains, used, rel, r, x, g);
    }
  }

  lemma InsertBuilds(bs: seq<Bucket>, cap: nat, chains: seq<seq<nat>>, used: nat, rel: seq<Tuple>, r: Radix, x: Tuple)
    requires Built(bs, cap, chains, used, rel, r) && used < |bs|
    ensures var h := Hash(r, x.key);
      Built(Insert(bs, cap, h, used, x), cap, GrownChains(bs, cap, chains, used, h), used + Chains.Taken(bs, cap, h), rel + [x], r)
  {
    InsertKeepsTable(bs, cap, chains, used, Hash(r, x.key), x);
    InsertHoldsAll(bs, cap, chains, used, rel, r, x);
  }

  // ----- the pool -----

  lemma OverflowOfChain(bs: seq<Bucket>, cap: nat, chains: seq<seq<nat>>, used: nat, rel: seq<Tuple>, r: Radix, h: nat)
    requires Built(bs, cap, chains, used, rel, r) && h < r.fanout
    ensures chains[h] != []
    ensures Times(|chains[h]| - 1, cap) + (if |chains[h]| > 1 then 1 else 0) <= |Sel(rel, r, h)|
  {
    assert ChainHolds(bs, cap, chains[h], rel, r, h);
    ContentSize(bs, cap, chains[h], h);
    SameSize(Content(bs, chains[h]), Sel(rel, r, h));
  }

  /** Overflow buckets take less room than there are tuples. */
  lemma {:induction false} OverflowIsSmall(bs: seq<Bucket>, cap: nat, chains: seq<seq<nat>>, used: nat, rel: seq<Tuple>, r: Radix, n: nat)
    requires Built(bs, cap, chains, used, rel, r) && n <= r.fanout
    ensures 0 <= Overflow(chains, n)
    ensures Times(Overflow(chains, n), cap) + (if Overflow(chains, n) > 0 then 1 else 0) <= Below(rel, r, n)
  {
    if n > 0 {
      OverflowIsSmall(bs, cap, chains, used, rel, r, n - 1);
      OverflowOfChain(bs, cap, chains, used, rel, r, n - 1);
      TimesPlus(Overflow(chains, n - 1), |chains[n - 1]| - 1, cap);
    }
  }

  lemma SameSize(a: seq<Tuple>, b: seq<Tuple>)
    requires multiset(a) == multiset(b)
    ensures |a| == |b|
  {
    assert |a| == |multiset(a)| == |multiset(b)| == |b|;
  }

  /** The next free bucket is always inside the pool: fewer overflow buckets are used than there are
      home buckets, for every distribution of keys. */
  lemma PoolIsEnough(bs: seq<Bucket>, cap: nat, chains: seq<seq<nat>>, used: nat, rel: seq<Tuple>, r: Radix)
    requires Built(bs, cap, chains, used, rel, r) && |rel| <= Times(r.fanout, cap)
    ensures used - r.fanout < r.fanout
  {
    OverflowIsSmall(bs, cap, chains, used, rel, r, r.fanout);
    BelowAll(rel, r);
    var over := Overflow(chains, r.fanout);
    if over >= r.fanout {
      TimesMonotone(r.fanout, over, cap);
    }
  }

  /** The sizes that `sc_join` chooses: a power of two of at least the number of tuples, divided by a
      capacity that is a smaller power of two. */
  lemma ChosenSizesFit(n: nat, size: nat, cap: nat)
    requires IsPow2(size) && IsPow2(cap) && cap <= size && n <= size
    ensures 0 < size / cap && n <= Times(size / cap, cap)
  {
    var a: nat :| size == Pow2(a);
    var b: nat :| cap == Pow2(b);
    Pow2Ordered(a, b);
    Pow2Sum(a - b, b);
    ExactQuotient(size, cap, Pow2(a - b));
  }

  lemma ExactQuotient(x: nat, d: nat, q: nat)
    requires 0 < d && x == d * q
    ensures x / d == q && Times(q, d) == x
  {
    RemainderUnique(x, d, q, 0);
    TimesIsProduct(q, d);
  }

  lemma {:induction false} Pow2Ordered(a: nat, b: nat)
    requires Pow2(b) <= Pow2(a)
    ensures b <= a
  {
    if b > 0 && a > 0 {
      Pow2Ordered(a - 1, b - 1);
    }
  }

  lemma {:induction false} Pow2Sum(a: nat, b: nat)
    ensures Pow2(a + b) == Pow2(b) * Pow2(a)
  {
    if b > 0 {
      Pow2Sum(a, b - 1);
    }
  }

  // ----- build -----

  method InsertTuple(buckets: array<Bucket>, cap: nat, h: nat, used0: nat, x: Tuple) returns (used: nat)
    requires 0 < cap && h < buckets.Length && used0 < buckets.Length
    requires |buckets[h].tuples| == cap && |buckets[used0].tuples| == cap && h != used0
    requires buckets[h].count <= cap
    requires buckets[h].next.To? ==> buckets[h].next.id < buckets.Length
    modifies buckets
    ensures buckets[..] == Insert(old(buckets[..]), cap, h, used0, x)
    ensures used == used0 + Chains.Taken(old(buckets[..]), cap, h)
  {
    used := used0;
    var curr := buckets[h];
    var nxt := curr.next;
    if curr.count == cap {
      if nxt.Null? || buckets[nxt.id].count == cap {
        used := used + 1;
        buckets[h] := curr.(next := To(used0));
        buckets[used0] := First(buckets[used0], nxt, x);
      } else {
        buckets[nxt.id] := Add(buckets[nxt.id], x);
      }
    } else {
      buckets[h] := Add(curr, x);
    }
  }

  function Cleared(cap: nat): Bucket { Bucket(0, Null, seq(cap, _ => Tuple(0, 0))) }

  function Singles(n: nat): seq<seq<nat>> { seq(n, (h: nat) => [h]) }

  lemma EmptyChain(bs: seq<Bucket>, cap: nat, h: nat, r: Radix)
    requires h < |bs| && |bs[h].tuples| == cap && bs[h].count == 0 && bs[h].next == Null
    ensures ChainHolds(bs, cap, [h], [], r, h)
  {
    assert LinkOk(bs, cap, [h], 0);
    FlattenNothing(Parts(bs, [h]));
  }

  /** A cleared table is in order. */
  lemma NothingBuilt(bs: seq<Bucket>, cap: nat, r: Radix)
    requires 0 < cap && |bs| >= r.fanout && forall id: nat :: id < |bs| ==> |bs[id].tuples| == cap
    requires forall h: nat :: h < r.fanout ==> bs[h].count == 0 && bs[h].next == Null
    ensures Built(bs, cap, Singles(r.fanout), r.fanout, [], r)
  {
    NoOverflow(r.fanout, r.fanout);
    forall h: nat | h < r.fanout
      ensures ChainHolds(bs, cap, Singles(r.fanout)[h], [], r, h) && ChainFits(bs, cap, Singles(r.fanout)[h], h, r.fanout)
    {
      EmptyChain(bs, cap, h, r);
    }
  }

  lemma {:induction false} NoOverflow(size: nat, n: nat)
    requires n <= size
    ensures Overflow(Singles(size), n) == 0
  {
    if n > 0 {
      NoOverflow(size, n - 1);
    }
  }

  lemma HomeIsReady(bs: seq<Bucket>, cap: nat, chains: seq<seq<nat>>, used: nat, rel: seq<Tuple>, r: Radix, h: nat)
    requires Built(bs, cap, chains, used, rel, r) && used < |bs| && h < r.fanout
    ensures 0 < cap && |bs[h].tuples| == cap && |bs[used].tuples| == cap && h != used
    ensures bs[h].count <= cap && (bs[h].next.To? ==> bs[h].next.id < |bs|)
  {
    assert ChainHolds(bs, cap, chains[h], rel, r, h);
    assert LinkOk(bs, cap, chains[h], 0);
  }

  lemma OneMore(bs: seq<Bucket>, cap: nat, chains: seq<seq<nat>>, used: nat, R: seq<Tuple>, r: Radix, i: nat)
    requires i < |R| <= Times(r.fanout, cap) && used < |bs| && Built(bs, cap, chains, used, R[..i], r)
    ensures var h := Hash(r, R[i].key);
      var used' := used + Chains.Taken(bs, cap, h);
      && r.fanout <= used' < 2 * r.fanout
      && Built(Insert(bs, cap, h, used, R[i]), cap, GrownChains(bs, cap, chains, used, h), used', R[..i + 1], r)
  {
    var h := Hash(r, R[i].key);
    Snoc(R, i);
    InsertBuilds(bs, cap, chains, used, R[..i], r, R[i]);
    PoolIsEnough(Insert(bs, cap, h, used, R[i]), cap, GrownChains(bs, cap, chains, used, h), used + Chains.Taken(bs, cap, h), R[..i + 1], r);
  }

  method BuildOne(buckets: array<Bucket>, cap: nat, r: Radix, R: seq<Tuple>, idx: nat, used0: nat, ghost chains: seq<seq<nat>>)
    returns (used: nat, ghost chains': seq<seq<nat>>)
    requires idx < |R| <= Times(r.fanout, cap) && used0 < buckets.Length
    requires Built(buckets[..], cap, chains, used0, R[..idx], r)
    modifies buckets
    ensures r.fanout <= used < 2 * r.fanout
    ensures Built(buckets[..], cap, chains', used, R[..idx + 1], r)
  {
    var h := Hash(r, R[idx].key);
    HomeIsReady(buckets[..], cap, chains, used0, R[..idx], r, h);
    OneMore(buckets[..], cap, chains, used0, R, r, idx);
    chains' := GrownChains(buckets[..], cap, chains, used0, h);
    used := InsertTuple(buckets, cap, h, used0, R[idx]);
  }

  method Build(R: seq<Tuple>, r: Radix, cap: nat, buckets: array<Bucket>) returns (freeIdx: nat, ghost chains: seq<seq<nat>>)
    requires 0 < cap && |R| <= Times(r.fanout, cap) && buckets.Length == 2 * r.fanout
    requires forall id: nat :: id < buckets.Length ==> buckets[id] == Cleared(cap)
    modifies buckets
    ensures freeIdx < r.fanout && Built(buckets[..], cap, chains, r.fanout + freeIdx, R, r)
  {
    NothingBuilt(buckets[..], cap, r);
    chains := Singles(r.fanout);
    var used := r.fanout;
    for idx := 0 to |R|
      invariant r.fanout <= used < 2 * r.fanout
      invariant Built(buckets[..], cap, chains, used, R[..idx], r)
    {
      used, chains := BuildOne(buckets, cap, r, R, idx, used, chains);
    }
    freeIdx := used - r.fanout;
    assert R[..|R|] == R;
  }

  // ----- probe -----

  method ScanBucket(b: Bucket, s: Tuple, acc0: Totals, ghost R: seq<Tuple>, ghost S: seq<Tuple>, ghost seen: seq<Tuple>)
    returns (acc: Totals)
    requires b.count <= |b.tuples| && Partly(acc0, R, S, seen, s)
    ensures Partly(acc, R, S, seen + Items(b), s)
  {
    acc := acc0;
    assert seen + b.tuples[..0] == seen;
    for jdx := 0 to b.count
      invariant Partly(acc, R, S, seen + b.tuples[..jdx], s)
    {
      PartlyOne(acc, R, S, seen + b.tuples[..jdx], b.tuples[jdx], s);
      assert seen + b.tuples[..jdx] + [b.tuples[jdx]] == seen + b.tuples[..jdx + 1];
      acc := AddPair(acc, b.tuples[jdx], s);
    }
  }

  lemma VisitedOneMore(bs: seq<Bucket>, chain: seq<nat>, j: nat)
    requires InRange(bs, chain) && j < |chain|
    ensures Flatten(Parts(bs, chain)[..j + 1]) == Flatten(Parts(bs, chain)[..j]) + Items(bs[chain[j]])
  {
    Snoc(Parts(bs, chain), j);
    FlattenSnoc(Parts(bs, chain)[..j], Items(bs[chain[j]]));
  }

  /** The `do`-`while` loop over a chain.  It ends because a chain has no bucket twice. */
  method ProbeChain(buckets: array<Bucket>, cap: nat, h: nat, s: Tuple, acc0: Totals,
                    ghost chain: seq<nat>, ghost R: seq<Tuple>, ghost S: seq<Tuple>) returns (acc: Totals)
    requires ChainOk(buckets[..], cap, chain, h) && Partly(acc0, R, S, [], s)
    ensures Partly(acc, R, S, Content(buckets[..], chain), s)
  {
    ghost var bs := buckets[..];
    ghost var parts := Parts(bs, chain);
    acc := acc0;
    var link := To(h);
    ghost var j: nat := 0;
    assert parts[..0] == [];
    while link.To?
      invariant j <= |chain| && link == (if j < |chain| then To(chain[j]) else Null)
      invariant Partly(acc, R, S, Flatten(parts[..j]), s)
      decreases |chain| - j
    {
      assert LinkOk(bs, cap, chain, j);
      VisitedOneMore(bs, chain, j);
      acc := ScanBucket(buckets[link.id], s, acc, R, S, Flatten(parts[..j]));
      link := buckets[link.id].next;
      j := j + 1;
    }
    assert parts[..|chain|] == parts;
  }

  lemma ChainIsEnough(bs: seq<Bucket>, cap: nat, chain: seq<nat>, R: seq<Tuple>, r: Radix, s: Tuple, w: Measure)
    requires ChainHolds(bs, cap, chain, R, r, Hash(r, s.key))
    ensures ProbeOne(w, Content(bs, chain), s) == ProbeOne(w, R, s)
  {
    ProbePermutation(w, Content(bs, chain), Sel(R, r, Hash(r, s.key)), s);
    ProbeSel(w, R, r, Hash(r, s.key), s);
  }

  lemma ChainEnds(bs: seq<Bucket>, cap: nat, chain: seq<nat>, R: seq<Tuple>, S: seq<Tuple>, r: Radix, i: nat, acc: Totals)
    requires i < |S| && ChainHolds(bs, cap, chain, R, r, Hash(r, S[i].key))
    requires Partly(acc, R, S[..i], Content(bs, chain), S[i])
    ensures IsJoin(acc, R, S[..i + 1])
  {
    forall w {
      ChainIsEnough(bs, cap, chain, R, r, S[i], w);
    }
    PartlyEnd(acc, R, S, Content(bs, chain), i);
  }

  method ProbeAll(buckets: array<Bucket>, cap: nat, R: seq<Tuple>, S: seq<Tuple>, r: Radix, ghost chains: seq<seq<nat>>)
    returns (acc: Totals)
    requires AllHold(buckets[..], cap, chains, R, r)
    ensures IsJoin(acc, R, S)
  {
    acc := ZERO;
    PartlyZero(R);
    for idx := 0 to |S|
      invariant IsJoin(acc, R, S[..idx])
    {
      var h := Hash(r, S[idx].key);
      assert ChainHolds(buckets[..], cap, chains[h], R, r, h);
      PartlyStart(acc, R, S[..idx], S[idx]);
      acc := ProbeChain(buckets, cap, h, S[idx], acc, chains[h], R, S[..idx]);
      ChainEnds(buckets[..], cap, chains[h], R, S, r, idx, acc);
    }
    WholeJoin(acc, R, S);
  }

  /** The kernel: the totals of the nested-loop join, duplicates included.  The table has room for
      as many tuples in home buckets as the build side has. */
  method ScJoin(R: seq<Tuple>, S: seq<Tuple>, r: Radix, cap: nat) returns (acc: Totals, freeIdx: nat)
    requires 0 < cap && |R| <= Times(r.fanout, cap)
    ensures IsJoin(acc, R, S)
    ensures freeIdx < r.fanout
  {
    var buckets := new Bucket[2 * r.fanout](_ => Cleared(cap));
    ghost var chains;
    freeIdx, chains := Build(R, r, cap, buckets);
    acc := ProbeAll(buckets, cap, R, S, r, chains);
  }
}
