/** Chains of fixed-size buckets: a home bucket and overflow buckets behind it.  An insertion touches
    only the home bucket and the first overflow bucket, and puts a new overflow bucket in between
    when both are full. */
module Chains {
  import opened Bits
  import opened Relations

  datatype Link = Null | To(id: nat)

  datatype Bucket = Bucket(count: nat, next: Link, tuples: seq<Tuple>)

  function Items(b: Bucket): seq<Tuple> {
    if b.count <= |b.tuples| then b.tuples[..b.count] else b.tuples
  }

  ghost predicate InRange(bs: seq<Bucket>, chain: seq<nat>) {
    forall j: nat :: j < |chain| ==> chain[j] < |bs|
  }

  /** Bucket `j` of a chain: it links to the next one; all but the first overflow bucket are full
      as soon as there is one, and none is empty. */
  ghost predicate LinkOk(bs: seq<Bucket>, cap: nat, chain: seq<nat>, j: nat)
    requires j < |chain| && chain[j] < |bs|
  {
    var b := bs[chain[j]];
    && |b.tuples| == cap && b.count <= cap
    && b.next == (if j + 1 < |chain| then To(chain[j + 1]) else Null)
    && (j == 0 && |chain| > 1 ==> b.count == cap)
    && (j == 1 ==> 0 < b.count)
    && (j >= 2 ==> b.count == cap)
  }

  ghost predicate ChainOk(bs: seq<Bucket>, cap: nat, chain: seq<nat>, h: nat) {
    && chain != [] && chain[0] == h && InRange(bs, chain)
    && (forall j: nat, j': nat :: j < j' < |chain| ==> chain[j] != chain[j'])
    && (forall j: nat {:trigger LinkOk(bs, cap, chain, j)} :: j < |chain| ==> LinkOk(bs, cap, chain, j))
  }

  ghost function Parts(bs: seq<Bucket>, chain: seq<nat>): seq<seq<Tuple>>
    requires InRange(bs, chain)
  {
    seq(|chain|, (j: nat) requires j < |chain| => Items(bs[chain[j]]))
  }

  /** The tuples of a chain, in the order in which a probe visits them. */
  ghost function Content(bs: seq<Bucket>, chain: seq<nat>): seq<Tuple>
    requires InRange(bs, chain)
  {
    Flatten(Parts(bs, chain))
  }

  // ----- an insertion -----

  datatype Place =
    | InHome
    | InNext(id: nat)
    | InFresh

  /** Which bucket takes the next tuple, from what is found in the home bucket. */
  function Choose(bs: seq<Bucket>, cap: nat, h: nat): Place
    requires h < |bs|
  {
    if bs[h].count != cap then InHome
    else
      match bs[h].next
      case Null => InFresh
      case To(id) => if id < |bs| && bs[id].count != cap then InNext(id) else InFresh
  }

  function Add(b: Bucket, x: Tuple): Bucket {
    Bucket(b.count + 1, b.next, if b.count < |b.tuples| then b.tuples[b.count := x] else b.tuples)
  }

  /** A new bucket, linked in behind the home bucket. */
  function First(b: Bucket, next: Link, x: Tuple): Bucket {
    Bucket(1, next, if b.tuples != [] then b.tuples[0 := x] else [])
  }

  function Insert(bs: seq<Bucket>, cap: nat, h: nat, free: nat, x: Tuple): (bs': seq<Bucket>)
    requires h < |bs| && free < |bs|
    ensures |bs'| == |bs|
  {
    match Choose(bs, cap, h)
    case InHome => bs[h := Add(bs[h], x)]
    case InNext(id) => bs[if id < |bs| then id else h := Add(bs[if id < |bs| then id else h], x)]
    case InFresh => bs[h := bs[h].(next := To(free))][free := First(bs[free], bs[h].next, x)]
  }

  ghost function Grown(bs: seq<Bucket>, cap: nat, h: nat, free: nat, chain: seq<nat>): seq<nat>
    requires h < |bs|
  {
    if chain != [] && Choose(bs, cap, h).InFresh? then [chain[0], free] + chain[1..] else chain
  }

  // ----- what it does to its own chain -----

  lemma AddItems(b: Bucket, cap: nat, x: Tuple)
    requires |b.tuples| == cap && b.count < cap
    ensures Items(Add(b, x)) == Items(b) + [x]
  {
  }

  /** A tuple added to bucket `j` of the chain. */
  lemma AddContent(bs: seq<Bucket>, cap: nat, chain: seq<nat>, h: nat, j: nat, x: Tuple)
    requires ChainOk(bs, cap, chain, h) && j < |chain| && j < 2 && bs[chain[j]].count < cap
    ensures ChainOk(bs[chain[j] := Add(bs[chain[j]], x)], cap, chain, h)
    ensures multiset(Content(bs[chain[j] := Add(bs[chain[j]], x)], chain)) == multiset(Content(bs, chain)) + multiset{x}
  {
    var bs' := bs[chain[j] := Add(bs[chain[j]], x)];
    var parts := Parts(bs, chain);
    assert LinkOk(bs, cap, chain, j);
    forall k: nat | k < |chain|
      ensures LinkOk(bs', cap, chain, k)
    {
      assert LinkOk(bs, cap, chain, k);
    }
    AddItems(bs[chain[j]], cap, x);
    assert Parts(bs', chain) == parts[j := parts[j] + [x]];
    FlattenGrows(parts, j, x);
  }

  ghost predicate FreeFor(bs: seq<Bucket>, cap: nat, chain: seq<nat>, free: nat) {
    free < |bs| && free !in chain && |bs[free].tuples| == cap
  }

  lemma LongerChain(bs: seq<Bucket>, cap: nat, chain: seq<nat>, h: nat, free: nat)
    requires ChainOk(bs, cap, chain, h) && FreeFor(bs, cap, chain, free)
    ensures var chain' := [chain[0], free] + chain[1..];
      && InRange(bs, chain')
      && forall k: nat, k': nat :: k < k' < |chain'| ==> chain'[k] != chain'[k']
  {
    var chain' := [chain[0], free] + chain[1..];
    assert forall k: nat :: 2 <= k < |chain'| ==> chain'[k] == chain[k - 1];
  }

  lemma FreshLink(bs: seq<Bucket>, cap: nat, chain: seq<nat>, h: nat, free: nat, x: Tuple, k: nat)
    requires 0 < cap && ChainOk(bs, cap, chain, h) && Choose(bs, cap, h).InFresh? && FreeFor(bs, cap, chain, free)
    requires k <= |chain|
    ensures var bs', chain' := Insert(bs, cap, h, free, x), Grown(bs, cap, h, free, chain);
      InRange(bs', chain') && LinkOk(bs', cap, chain', k)
  {
    LongerChain(bs, cap, chain, h, free);
    assert LinkOk(bs, cap, chain, 0);
    if |chain| > 1 {
      assert LinkOk(bs, cap, chain, 1);
    }
    if k >= 2 {
      LaterLink(bs, cap, chain, h, free, x, k);
    } else {
      FirstLinks(bs, cap, chain, h, free, x, k);
    }
  }

  /** The home bucket and the new overflow bucket. */
  lemma FirstLinks(bs: seq<Bucket>, cap: nat, chain: seq<nat>, h: nat, free: nat, x: Tuple, k: nat)
    requires 0 < cap && ChainOk(bs, cap, chain, h) && Choose(bs, cap, h).InFresh? && FreeFor(bs, cap, chain, free)
    requires k < 2 && LinkOk(bs, cap, chain, 0) && (|chain| > 1 ==> LinkOk(bs, cap, chain, 1))
    ensures var bs', chain' := Insert(bs, cap, h, free, x), Grown(bs, cap, h, free, chain);
      InRange(bs', chain') && |chain'| == |chain| + 1 && LinkOk(bs', cap, chain', k)
  {
    LongerChain(bs, cap, chain, h, free);
  }

  /** The overflow buckets that were there before. */
  lemma LaterLink(bs: seq<Bucket>, cap: nat, chain: seq<nat>, h: nat, free: nat, x: Tuple, k: nat)
    requires 0 < cap && ChainOk(bs, cap, chain, h) && Choose(bs, cap, h).InFresh? && FreeFor(bs, cap, chain, free)
    requires 2 <= k <= |chain| && LinkOk(bs, cap, chain, 0) && LinkOk(bs, cap, chain, 1)
    ensures var bs', chain' := Insert(bs, cap, h, free, x), Grown(bs, cap, h, free, chain);
      InRange(bs', chain') && LinkOk(bs', cap, chain', k)
  {
    LongerChain(bs, cap, chain, h, free);
    assert LinkOk(bs, cap, chain, k - 1);
  }

  lemma FreshLinks(bs: seq<Bucket>, cap: nat, chain: seq<nat>, h: nat, free: nat, x: Tuple)
    requires 0 < cap && ChainOk(bs, cap, chain, h) && Choose(bs, cap, h).InFresh? && FreeFor(bs, cap, chain, free)
    ensures ChainOk(Insert(bs, cap, h, free, x), cap, Grown(bs, cap, h, free, chain), h)
  {
    LongerChain(bs, cap, chain, h, free);
    forall k: nat | k <= |chain|
      ensures LinkOk(Insert(bs, cap, h, free, x), cap, Grown(bs, cap, h, free, chain), k)
    {
      FreshLink(bs, cap, chain, h, free, x, k);
    }
  }

  lemma FreshPart(bs: seq<Bucket>, cap: nat, chain: seq<nat>, h: nat, free: nat, x: Tuple, k: nat)
    requires 0 < cap && ChainOk(bs, cap, chain, h) && Choose(bs, cap, h).InFresh? && FreeFor(bs, cap, chain, free)
    requires k <= |chain|
    ensures var bs', chain' := Insert(bs, cap, h, free, x), Grown(bs, cap, h, free, chain);
      && chain'[k] < |bs'|
      && Items(bs'[chain'[k]]) == if k == 0 then Items(bs[chain[0]]) else if k == 1 then [x] else Items(bs[chain[k - 1]])
  {
    LongerChain(bs, cap, chain, h, free);
  }

  lemma FreshParts(bs: seq<Bucket>, cap: nat, chain: seq<nat>, h: nat, free: nat, x: Tuple)
    requires 0 < cap && ChainOk(bs, cap, chain, h) && Choose(bs, cap, h).InFresh? && FreeFor(bs, cap, chain, free)
    ensures var bs', chain' := Insert(bs, cap, h, free, x), Grown(bs, cap, h, free, chain);
      var parts := Parts(bs, chain);
      InRange(bs', chain') && Parts(bs', chain') == parts[..1] + [[x]] + parts[1..]
  {
    var bs', chain' := Insert(bs, cap, h, free, x), Grown(bs, cap, h, free, chain);
    var parts := Parts(bs, chain);
    LongerChain(bs, cap, chain, h, free);
    var parts' := Parts(bs', chain');
    forall k: nat | k <= |chain|
      ensures parts'[k] == (if k == 0 then parts[0] else if k == 1 then [x] else parts[k - 1])
    {
      FreshPart(bs, cap, chain, h, free, x, k);
    }
  }

  lemma FreshContent(bs: seq<Bucket>, cap: nat, chain: seq<nat>, h: nat, free: nat, x: Tuple)
    requires 0 < cap && ChainOk(bs, cap, chain, h) && Choose(bs, cap, h).InFresh? && FreeFor(bs, cap, chain, free)
    ensures InRange(Insert(bs, cap, h, free, x), Grown(bs, cap, h, free, chain))
    ensures multiset(Content(Insert(bs, cap, h, free, x), Grown(bs, cap, h, free, chain)))
         == multiset(Content(bs, chain)) + multiset{x}
  {
    var parts := Parts(bs, chain);
    FreshParts(bs, cap, chain, h, free, x);
    FlattenInsert(parts[..1], parts[1..], x);
    assert parts == parts[..1] + parts[1..];
  }

  lemma FlattenInsert(a: seq<seq<Tuple>>, b: seq<seq<Tuple>>, x: Tuple)
    ensures multiset(Flatten(a + [[x]] + b)) == multiset(Flatten(a + b)) + multiset{x}
  {
    FlattenConcat(a + [[x]], b);
    FlattenConcat(a, b);
    FlattenSnoc(a, [x]);
  }

  /** The tuple is added to the chain, and the chain stays in order. */
  lemma InsertContent(bs: seq<Bucket>, cap: nat, chain: seq<nat>, h: nat, free: nat, x: Tuple)
    requires 0 < cap && ChainOk(bs, cap, chain, h) && FreeFor(bs, cap, chain, free)
    ensures ChainOk(Insert(bs, cap, h, free, x), cap, Grown(bs, cap, h, free, chain), h)
    ensures multiset(Content(Insert(bs, cap, h, free, x), Grown(bs, cap, h, free, chain)))
         == multiset(Content(bs, chain)) + multiset{x}
  {
    assert LinkOk(bs, cap, chain, 0);
    match Choose(bs, cap, h) {
      case InHome =>
        AddContent(bs, cap, chain, h, 0, x);
      case InNext(id) =>
        assert id == chain[1] && LinkOk(bs, cap, chain, 1);
        AddContent(bs, cap, chain, h, 1, x);
      case InFresh =>
        FreshLinks(bs, cap, chain, h, free, x);
        FreshContent(bs, cap, chain, h, free, x);
    }
  }

  // ----- what it does to other chains -----

  /** Nothing, because it writes only to buckets of its own chain and to the new one. */
  lemma OtherChain(bs: seq<Bucket>, bs': seq<Bucket>, cap: nat, chain: seq<nat>, h: nat)
    requires ChainOk(bs, cap, chain, h) && |bs| <= |bs'|
    requires forall j: nat :: j < |chain| ==> bs'[chain[j]] == bs[chain[j]]
    ensures ChainOk(bs', cap, chain, h) && Content(bs', chain) == Content(bs, chain)
  {
    forall j: nat | j < |chain|
      ensures LinkOk(bs', cap, chain, j)
    {
      assert LinkOk(bs, cap, chain, j);
    }
    assert Parts(bs', chain) == Parts(bs, chain);
  }

  // ----- how many overflow buckets there can be -----

  lemma {:induction false} FullParts(bs: seq<Bucket>, cap: nat, chain: seq<nat>, h: nat, n: nat)
    requires 0 < cap && ChainOk(bs, cap, chain, h) && 2 <= n <= |chain|
    ensures |Flatten(Parts(bs, chain)[..n])| >= Times(n - 1, cap) + 1
  {
    var parts := Parts(bs, chain);
    assert LinkOk(bs, cap, chain, n - 1);
    assert parts[..n][..n - 1] == parts[..n - 1];
    if n == 2 {
      assert LinkOk(bs, cap, chain, 0);
      assert parts[..1][..0] == [];
      assert Times(1, cap) == Times(0, cap) + cap == cap;
    } else {
      FullParts(bs, cap, chain, h, n - 1);
    }
  }

  /** A chain with overflow buckets holds more tuples than they have room for. */
  lemma ContentSize(bs: seq<Bucket>, cap: nat, chain: seq<nat>, h: nat)
    requires 0 < cap && ChainOk(bs, cap, chain, h)
    ensures Times(|chain| - 1, cap) + (if |chain| > 1 then 1 else 0) <= |Content(bs, chain)|
  {
    if |chain| > 1 {
      FullParts(bs, cap, chain, h, |chain|);
      assert Parts(bs, chain)[..|chain|] == Parts(bs, chain);
    }
  }

  // ----- all chains of a hash table -----

  ghost predicate Apart(a: seq<nat>, b: seq<nat>) {
    forall id :: !(id in a && id in b)
  }

  ghost predicate AllBelow(chain: seq<nat>, used: nat) {
    forall id :: id in chain ==> id < used
  }

  /** How many overflow buckets the first `n` chains have. */
  ghost function Overflow(chains: seq<seq<nat>>, n: nat): int
    requires n <= |chains|
  {
    if n == 0 then 0 else Overflow(chains, n - 1) + |chains[n - 1]| - 1
  }

  ghost predicate ChainFits(bs: seq<Bucket>, cap: nat, chain: seq<nat>, h: nat, used: nat) {
    ChainOk(bs, cap, chain, h) && AllBelow(chain, used)
  }

  /** One chain per hash value; the buckets from `used` on are free. */
  ghost predicate Table(bs: seq<Bucket>, cap: nat, chains: seq<seq<nat>>, used: nat) {
    && 0 < cap && |chains| <= used <= |bs|
    && used == |chains| + Overflow(chains, |chains|)
    && (forall h: nat {:trigger ChainFits(bs, cap, chains[h], h, used)} :: h < |chains| ==> ChainFits(bs, cap, chains[h], h, used))
    && (forall h: nat, h': nat {:trigger Apart(chains[h], chains[h'])} :: h < h' < |chains| ==> Apart(chains[h], chains[h']))
    && (forall id: nat :: used <= id < |bs| ==> |bs[id].tuples| == cap)
  }

  /** What an insertion takes from the free buckets. */
  function Taken(bs: seq<Bucket>, cap: nat, h: nat): nat
    requires h < |bs|
  {
    if Choose(bs, cap, h).InFresh? then 1 else 0
  }

  lemma {:induction false} OverflowGrows(chains: seq<seq<nat>>, h: nat, chain: seq<nat>, n: nat)
    requires h < |chains| && n <= |chains|
    ensures Overflow(chains[h := chain], n) == Overflow(chains, n) + (if h < n then |chain| - |chains[h]| else 0)
  {
    if n > 0 {
      OverflowGrows(chains, h, chain, n - 1);
    }
  }

  /** An insertion changes no bucket of another chain. */
  lemma InsertElsewhere(bs: seq<Bucket>, cap: nat, chains: seq<seq<nat>>, used: nat, h: nat, h': nat, x: Tuple)
    requires Table(bs, cap, chains, used) && h < |chains| && h' < |chains| && h != h' && used < |bs|
    ensures ChainOk(Insert(bs, cap, h, used, x), cap, chains[h'], h')
    ensures ChainOk(bs, cap, chains[h'], h') && Content(Insert(bs, cap, h, used, x), chains[h']) == Content(bs, chains[h'])
  {
    assert ChainFits(bs, cap, chains[h], h, used) && ChainFits(bs, cap, chains[h'], h', used);
    assert Apart(chains[if h < h' then h else h'], chains[if h < h' then h' else h]);
    WritesOwn(bs, cap, chains[h], h, used, x);
    forall j: nat | j < |chains[h']|
      ensures Insert(bs, cap, h, used, x)[chains[h'][j]] == bs[chains[h'][j]]
    {
      assert chains[h'][j] in chains[h'];
    }
    OtherChain(bs, Insert(bs, cap, h, used, x), cap, chains[h'], h');
  }

  lemma WritesOwn(bs: seq<Bucket>, cap: nat, chain: seq<nat>, h: nat, free: nat, x: Tuple)
    requires ChainOk(bs, cap, chain, h) && free < |bs|
    ensures forall id: nat :: id < |bs| && id !in chain && id != free ==> Insert(bs, cap, h, free, x)[id] == bs[id]
  {
    assert LinkOk(bs, cap, chain, 0);
    assert chain[0] in chain;
    if |chain| > 1 {
      assert chain[1] in chain;
    }
  }

  lemma InsertOwn(bs: seq<Bucket>, cap: nat, chains: seq<seq<nat>>, used: nat, h: nat, x: Tuple)
    requires Table(bs, cap, chains, used) && h < |chains| && used < |bs|
    ensures var bs', chain' := Insert(bs, cap, h, used, x), Grown(bs, cap, h, used, chains[h]);
      && ChainFits(bs', cap, chain', h, used + Taken(bs, cap, h))
      && ChainOk(bs, cap, chains[h], h)
      && multiset(Content(bs', chain')) == multiset(Content(bs, chains[h])) + multiset{x}
      && forall id :: id in chain' ==> id in chains[h] || (id == used && Taken(bs, cap, h) == 1)
  {
    assert ChainFits(bs, cap, chains[h], h, used);
    InsertContent(bs, cap, chains[h], h, used, x);
    var chain, chain' := chains[h], Grown(bs, cap, h, used, chains[h]);
    forall id | id in chain'
      ensures id in chain || (id == used && Taken(bs, cap, h) == 1)
    {
      assert forall k: nat :: 2 <= k < |chain'| && Taken(bs, cap, h) == 1 ==> chain'[k] == chain[k - 1];
    }
  }

  lemma InsertFree(bs: seq<Bucket>, cap: nat, chains: seq<seq<nat>>, used: nat, h: nat, x: Tuple, id: nat)
    requires Table(bs, cap, chains, used) && h < |chains| && used < |bs|
    requires used + Taken(bs, cap, h) <= id < |bs|
    ensures |Insert(bs, cap, h, used, x)[id].tuples| == cap
  {
    assert ChainFits(bs, cap, chains[h], h, used);
    assert LinkOk(bs, cap, chains[h], 0);
    if |chains[h]| > 1 {
      assert chains[h][1] in chains[h] && chains[h][0] in chains[h];
    }
  }

  ghost function GrownChains(bs: seq<Bucket>, cap: nat, chains: seq<seq<nat>>, used: nat, h: nat): seq<seq<nat>>
    requires h < |bs| && h < |chains|
  {
    chains[h := Grown(bs, cap, h, used, chains[h])]
  }

  /** An insertion keeps the table in order. */
  lemma InsertKeepsTable(bs: seq<Bucket>, cap: nat, chains: seq<seq<nat>>, used: nat, h: nat, x: Tuple)
    requires Table(bs, cap, chains, used) && h < |chains| && used < |bs|
    ensures Table(Insert(bs, cap, h, used, x), cap, GrownChains(bs, cap, chains, used, h), used + Taken(bs, cap, h))
  {
    InsertOwn(bs, cap, chains, used, h, x);
    var bs', chains', used' := Insert(bs, cap, h, used, x), GrownChains(bs, cap, chains, used, h), used + Taken(bs, cap, h);
    OverflowGrows(chains, h, chains'[h], |chains|);
    forall g: nat | g < |chains'|
      ensures ChainFits(bs', cap, chains'[g], g, used')
    {
      if g != h {
        InsertElsewhere(bs, cap, chains, used, h, g, x);
        assert ChainFits(bs, cap, chains[g], g, used);
      }
    }
    forall g: nat, g': nat | g < g' < |chains'|
      ensures Apart(chains'[g], chains'[g'])
    {
      assert Apart(chains[g], chains[g']);
      assert ChainFits(bs, cap, chains[g], g, used) && ChainFits(bs, cap, chains[g'], g', used);
    }
    forall id: nat | used' <= id < |bs'|
      ensures |bs'[id].tuples| == cap
    {
      InsertFree(bs, cap, chains, used, h, x, id);
    }
  }
}
