/** `lp_join`: linear probing in a table of tuples, where key 0 marks an empty slot. */
module LinearProbing {
  import opened Bits
  import opened Relations
  import opened Accumulators
  import opened Probing
  import opened FirstMatches

  function AsSlot(x: Tuple): Slot { if x.key == 0 then Empty else Full(x) }

  function Slots(mem: seq<Tuple>): seq<Slot> {
    seq(|mem|, (q: nat) requires q < |mem| => AsSlot(mem[q]))
  }

  lemma StoreFills(mem: seq<Tuple>, q: nat, x: Tuple)
    requires q < |mem| && x.key != 0
    ensures Slots(mem[q := x]) == Slots(mem)[q := Full(x)]
  {
  }

  ghost predicate Nonzero(rel: seq<Tuple>) {
    forall j: nat :: j < |rel| ==> rel[j].key != 0
  }

  /** The table holds these tuples, each on its way from its home slot. */
  ghost predicate Holds(mem: seq<Tuple>, r: Radix, rel: seq<Tuple>) {
    Valid(Slots(mem), r) && multiset(Entries(Slots(mem))) == multiset(rel)
  }

  lemma EmptyHolds(mem: seq<Tuple>, r: Radix)
    requires |mem| == r.fanout && forall q: nat :: q < |mem| ==> mem[q].key == 0
    ensures Holds(mem, r, [])
  {
    NoEntries(Slots(mem));
  }

  lemma StoreHolds(mem: seq<Tuple>, r: Radix, rel: seq<Tuple>, x: Tuple, d: nat)
    requires Holds(mem, r, rel) && x.key != 0 && d < |mem|
    requires Walked(Slots(mem), Hash(r, x.key), d) && mem[At(Hash(r, x.key), d, |mem|)].key == 0
    ensures Holds(mem[At(Hash(r, x.key), d, |mem|) := x], r, rel + [x])
  {
    var q := At(Hash(r, x.key), d, |mem|);
    StoreFills(mem, q, x);
    FillKeepsValid(Slots(mem), r, x, d);
    EntriesFill(Slots(mem), q, x);
  }

  /** And a lookup comes to the first of those with its key. */
  ghost predicate Filled(mem: seq<Tuple>, r: Radix, rel: seq<Tuple>) {
    Holds(mem, r, rel) && InOrder(Slots(mem), r, rel)
  }

  lemma StoreFilled(mem: seq<Tuple>, r: Radix, rel: seq<Tuple>, x: Tuple, d: nat)
    requires Filled(mem, r, rel) && x.key != 0 && d < |mem|
    requires Walked(Slots(mem), Hash(r, x.key), d) && mem[At(Hash(r, x.key), d, |mem|)].key == 0
    ensures Filled(mem[At(Hash(r, x.key), d, |mem|) := x], r, rel + [x])
  {
    var q := At(Hash(r, x.key), d, |mem|);
    StoreHolds(mem, r, rel, x, d);
    StoreFills(mem, q, x);
    FillKeepsOrder(Slots(mem), r, rel, x, q);
  }

  lemma RoomLeft(mem: seq<Tuple>, r: Radix, rel: seq<Tuple>)
    requires Holds(mem, r, rel) && |rel| < |mem|
    ensures |Entries(Slots(mem))| < |mem|
  {
    assert |Entries(Slots(mem))| == |multiset(Entries(Slots(mem)))| == |multiset(rel)| == |rel|;
  }

  /** The insertion loop.  It ends because the table has an empty slot. */
  method FindEmpty(table: array<Tuple>, home: nat) returns (pos: nat)
    requires home < table.Length && |Entries(Slots(table[..]))| < table.Length
    ensures pos == At(home, FirstEmpty(Slots(table[..]), home, 0), table.Length)
  {
    ghost var slots := Slots(table[..]);
    pos := home;
    ghost var d: nat := 0;
    FirstEmptyExists(slots, home);
    while table[pos].key != 0
      invariant d <= |slots| && pos == At(home, d, |slots|)
      invariant FirstEmpty(slots, home, d) == FirstEmpty(slots, home, 0)
      decreases |slots| - d
    {
      AtNext(home, d, |slots|);
      pos := Off(pos + 1, table.Length);
      d := d + 1;
    }
  }

  method Insert(table: array<Tuple>, r: Radix, x: Tuple, ghost rel: seq<Tuple>)
    requires Filled(table[..], r, rel) && |rel| < table.Length && x.key != 0
    modifies table
    ensures Filled(table[..], r, rel + [x])
  {
    ghost var mem := table[..];
    RoomLeft(mem, r, rel);
    FirstEmptyExists(Slots(mem), Hash(r, x.key));
    var pos := FindEmpty(table, Hash(r, x.key));
    StoreFilled(mem, r, rel, x, FirstEmpty(Slots(mem), Hash(r, x.key), 0));
    table[pos] := x;
    assert table[..] == mem[pos := x];
  }

  method Build(R: seq<Tuple>, r: Radix) returns (table: array<Tuple>)
    requires |R| <= r.fanout && Nonzero(R)
    ensures fresh(table) && Filled(table[..], r, R)
  {
    table := new Tuple[r.fanout](_ => Tuple(0, 0));
    EmptyHolds(table[..], r);
    EmptyInOrder(Slots(table[..]), r);
    for idx := 0 to |R|
      invariant table.Length == r.fanout && Filled(table[..], r, R[..idx])
    {
      Snoc(R, idx);
      Insert(table, r, R[idx], R[..idx]);
    }
    assert R[..|R|] == R;
  }

  /** The lookup of the selectivity form: it also stops when it is back at its first slot. */
  method LookupSelective(table: array<Tuple>, first: nat, key: nat) returns (pos: nat, matched: bool)
    requires first < table.Length
    ensures pos < table.Length && (matched ==> table[pos].key != 0)
    ensures (if matched then AsSlot(table[pos]) else Empty) == Outcome(Slots(table[..]), first, key)
  {
    ghost var slots := Slots(table[..]);
    var flag := true;
    pos := first;
    ghost var d: nat := 0;
    while table[pos].key != 0 && table[pos].key != key && (pos != first || flag)
      invariant d <= |slots| && pos == At(first, d, |slots|) && flag == (d == 0)
      invariant FirstStop(slots, first, key, d) == FirstStop(slots, first, key, 0)
      decreases |slots| - d
    {
      AtHome(first, |slots|);
      AtNext(first, d, |slots|);
      flag := false;
      pos := Off(pos + 1, table.Length);
      d := d + 1;
    }
    matched := table[pos].key != 0 && (pos != first || flag);
    AtHome(first, |slots|);
    if d < |slots| {
      AtApart(first, d, |slots|);
    }
  }

  /** The plain lookup, where it stops: in a table with an empty slot or with the key. */
  method LookupPlain(table: array<Tuple>, first: nat, key: nat) returns (pos: nat, matched: bool)
    requires first < table.Length
    requires Stops(Slots(table[..]), key)
    ensures pos < table.Length && (matched ==> table[pos].key != 0)
    ensures (if matched then AsSlot(table[pos]) else Empty) == Outcome(Slots(table[..]), first, key)
  {
    ghost var slots := Slots(table[..]);
    pos := first;
    ghost var d: nat := 0;
    StopsWithinRound(slots, first, key);
    while table[pos].key != 0 && table[pos].key != key
      invariant d <= |slots| && pos == At(first, d, |slots|)
      invariant FirstStop(slots, first, key, d) == FirstStop(slots, first, key, 0)
      decreases |slots| - d
    {
      AtNext(first, d, |slots|);
      pos := Off(pos + 1, table.Length);
      d := d + 1;
    }
    matched := table[pos].key != 0;
  }

  lemma RoomStops(mem: seq<Tuple>, r: Radix, rel: seq<Tuple>, key: nat)
    requires Holds(mem, r, rel) && |rel| < |mem|
    ensures Stops(Slots(mem), key)
  {
    RoomLeft(mem, r, rel);
    EntriesFull(Slots(mem));
    var q: nat :| q < |mem| && Slots(mem)[q].Empty?;
    assert !Passes(Slots(mem)[q], key);
  }

  method ProbeTuple(table: array<Tuple>, r: Radix, s: Tuple, selective: bool, acc0: Totals, ghost S: seq<Tuple>)
    returns (acc: Totals)
    requires table.Length == r.fanout && (selective || Stops(Slots(table[..]), s.key))
    requires acc0 == LookupTotals(Slots(table[..]), r, S)
    ensures acc == LookupTotals(Slots(table[..]), r, S + [s])
  {
    ghost var slots := Slots(table[..]);
    var first := Hash(r, s.key);
    var pos: nat, matched: bool;
    if selective {
      pos, matched := LookupSelective(table, first, s.key);
    } else {
      pos, matched := LookupPlain(table, first, s.key);
    }
    OutcomeKey(slots, first, s.key);
    AddOneLookup(acc0, slots, r, S, s, matched, table[pos].rowId);
    acc := AddLookup(acc0, matched, table[pos].rowId, s);
  }

  ghost predicate AllStop(mem: seq<Tuple>, S: seq<Tuple>) {
    forall s :: s in S ==> Stops(Slots(mem), s.key)
  }

  method ProbeAll(table: array<Tuple>, S: seq<Tuple>, r: Radix, selective: bool) returns (acc: Totals)
    requires table.Length == r.fanout && (selective || AllStop(table[..], S))
    ensures acc == LookupTotals(Slots(table[..]), r, S)
  {
    ghost var slots := Slots(table[..]);
    acc := ZERO;
    for idx := 0 to |S|
      invariant acc == LookupTotals(slots, r, S[..idx])
    {
      Snoc(S, idx);
      assert S[idx] in S;
      acc := ProbeTuple(table, r, S[idx], selective, acc, S[..idx]);
    }
    assert S[..|S|] == S;
  }

  /** In a full table every slot passes a key that the table does not hold. */
  lemma FullTableStops(mem: seq<Tuple>, r: Radix, R: seq<Tuple>, key: nat)
    requires Holds(mem, r, R) && |R| == r.fanout && Stops(Slots(mem), key)
    ensures exists x :: x in R && x.key == key
  {
    var table := Slots(mem);
    var q: nat :| q < |table| && !Passes(table[q], key);
    assert |Entries(table)| == |multiset(Entries(table))| == |multiset(R)| == |R|;
    FullTable(table, q);
    EntryAt(table, q);
    assert table[q].tuple in multiset(R);
  }

  /** Every plain lookup meets a slot that stops it exactly when the table has a slot more than the
      build side has tuples, or every probe key occurs on the build side. */
  lemma PlainProbeStops(mem: seq<Tuple>, r: Radix, R: seq<Tuple>, S: seq<Tuple>)
    requires Holds(mem, r, R) && |R| <= r.fanout
    ensures AllStop(mem, S) <==> |R| < r.fanout || EveryKeyOccurs(R, S)
  {
    forall s | s in S && (|R| < r.fanout || EveryKeyOccurs(R, S))
      ensures Stops(Slots(mem), s.key)
    {
      if |R| < r.fanout {
        RoomStops(mem, r, R, s.key);
      } else {
        var x :| x in R && x.key == s.key;
        PresentKeyStops(Slots(mem), R, x);
      }
    }
    if AllStop(mem, S) && |R| == r.fanout {
      forall s | s in S
        ensures exists x :: x in R && x.key == s.key
      {
        FullTableStops(mem, r, R, s.key);
      }
    }
  }

  /** The kernel, with either probe.  The build side must have no key 0 and fit the table; the plain
      probe needs an empty slot, or every probe key on the build side.  For every build side, each probe
      tuple whose key occurs is joined with the first tuple that has the key. */
  method LpJoin(R: seq<Tuple>, S: seq<Tuple>, r: Radix, selective: bool) returns (acc: Totals)
    requires |R| <= r.fanout && Nonzero(R)
    requires selective || |R| < r.fanout || EveryKeyOccurs(R, S)
    ensures AtMostOne(R, S) ==> IsJoin(acc, R, S)
    ensures NestedLoop(Matched, R, S) < WORD && IsJoin(acc, R, S) ==> AtMostOne(R, S)
    ensures acc.matched == Word(Hits(R, S)) && acc.checksum == Word(HitIds(R, S))
  {
    var table := Build(R, r);
    if !selective {
      PlainProbeStops(table[..], r, R, S);
    }
    acc := ProbeAll(table, S, r, selective);
    LookupTotalsAreTheJoin(Slots(table[..]), r, R, S);
    LookupsCountHits(Slots(table[..]), r, R, S);
    LookupsAddFirst(Slots(table[..]), r, R, S);
  }

  /** A lookup comes to a slot that does not let it pass. */
  ghost predicate Ends(mem: seq<Tuple>, first: nat, key: nat)
    requires mem != []
  {
    exists d: nat :: !Passes(Slots(mem)[At(first, d, |mem|)], key)
  }

  /** The plain probe cannot do with less: where the table is full and some probe key does not occur,
      the lookup of that key passes every slot that it ever comes to. */
  lemma PlainProbeRuns(mem: seq<Tuple>, r: Radix, R: seq<Tuple>, S: seq<Tuple>)
    requires Holds(mem, r, R) && |R| <= r.fanout
    ensures (forall s :: s in S ==> Ends(mem, Hash(r, s.key), s.key)) <==> (|R| < r.fanout || EveryKeyOccurs(R, S))
  {
    PlainProbeStops(mem, r, R, S);
    forall s | s in S
      ensures Ends(mem, Hash(r, s.key), s.key) <==> Stops(Slots(mem), s.key)
    {
      PlainLookupStops(Slots(mem), Hash(r, s.key), s.key);
    }
  }
}
