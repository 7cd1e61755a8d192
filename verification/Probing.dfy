/** Open addressing with linear probing, on values: what a table of slots must satisfy for lookups
    to be right, and what an insertion does to it. */
module Probing {
  import opened Bits
  import opened Blocks
  import opened Relations
  import opened Accumulators

  datatype Slot = Empty | Full(tuple: Tuple)

  /** The slot that is `d` steps from `home`, in a table of `n` slots that wraps around. */
  function At(home: nat, d: nat, n: nat): (q: nat)
    requires 0 < n
    ensures q < n
  {
    Off(home + d, n)
  }

  function Dist(home: nat, q: nat, n: nat): (d: nat)
    requires home < n && q < n
    ensures d < n
  {
    if q >= home then q - home else q + n - home
  }

  lemma DistAt(home: nat, q: nat, n: nat)
    requires home < n && q < n
    ensures At(home, Dist(home, q, n), n) == q
  {
    assert Off(q, n) == q;
    if q < home {
      assert Off(q + n, n) == Off(q + n - n, n);
    }
  }

  /** `pos = (pos + 1) & mask` */
  lemma AtNext(home: nat, d: nat, n: nat)
    requires 0 < n
    ensures Off(At(home, d, n) + 1, n) == At(home, d + 1, n)
  {
    NextSlot(home + d, n);
    if At(home, d, n) == n - 1 {
      assert Off(n, n) == Off(0, n) == 0;
    }
  }

  lemma AtHome(home: nat, n: nat)
    requires home < n
    ensures At(home, 0, n) == home && At(home, n, n) == home
  {
  }

  /** Steps below `n` apart from each other lead to different slots. */
  lemma AtApart(home: nat, d: nat, n: nat)
    requires home < n && d < n
    ensures Dist(home, At(home, d, n), n) == d
  {
    if home + d >= n {
      assert Off(home + d, n) == Off(home + d - n, n) == home + d - n;
    }
  }

  /** The first `d` slots from `home` are in use. */
  ghost predicate Walked(table: seq<Slot>, home: nat, d: nat)
    requires table != []
  {
    forall e: nat {:trigger At(home, e, |table|)} :: e < d ==> table[At(home, e, |table|)].Full?
  }

  /** A tuple is reached from its home slot over slots in use. */
  ghost predicate Reached(table: seq<Slot>, r: Radix, q: nat)
    requires |table| == r.fanout && q < |table|
  {
    table[q].Full? ==>
      var home := Hash(r, table[q].tuple.key);
      Walked(table, home, Dist(home, q, |table|))
  }

  ghost predicate Valid(table: seq<Slot>, r: Radix) {
    |table| == r.fanout && forall q: nat :: q < |table| ==> Reached(table, r, q)
  }

  /** The tuples of a table, in slot order. */
  function Entries(table: seq<Slot>): seq<Tuple> {
    if table == [] then []
    else
      var last := table[|table| - 1];
      Entries(table[..|table| - 1]) + (if last.Full? then [last.tuple] else [])
  }

  lemma {:induction false} EntryAt(table: seq<Slot>, q: nat)
    requires q < |table| && table[q].Full?
    ensures table[q].tuple in Entries(table)
  {
    if q < |table| - 1 {
      EntryAt(table[..|table| - 1], q);
    }
  }

  lemma {:induction false} EntrySlot(table: seq<Slot>, x: Tuple) returns (q: nat)
    requires x in Entries(table)
    ensures q < |table| && table[q] == Full(x)
  {
    var rest := table[..|table| - 1];
    if table[|table| - 1] == Full(x) {
      q := |table| - 1;
    } else {
      assert x in Entries(rest);
      q := EntrySlot(rest, x);
    }
  }

  lemma {:induction false} EntriesConcat(a: seq<Slot>, b: seq<Slot>)
    ensures Entries(a + b) == Entries(a) + Entries(b)
  {
    if b == [] {
      assert a + b == a;
    } else {
      assert (a + b)[..|a + b| - 1] == a + b[..|b| - 1];
      EntriesConcat(a, b[..|b| - 1]);
    }
  }

  lemma EntriesOfOne(slot: Slot)
    ensures Entries([slot]) == if slot.Full? then [slot.tuple] else []
  {
    assert [slot][..0] == [];
  }

  lemma SlotBetween(table: seq<Slot>, q: nat, slot: Slot)
    requires q < |table|
    ensures table[q := slot] == table[..q] + ([slot] + table[q + 1..])
  {
  }

  lemma EntriesAround(a: seq<Slot>, slot: Slot, b: seq<Slot>)
    ensures multiset(Entries(a + ([slot] + b))) == multiset(Entries(a)) + multiset(Entries([slot])) + multiset(Entries(b))
  {
    EntriesConcat(a, [slot] + b);
    EntriesConcat([slot], b);
  }

  /** Filling an empty slot adds the tuple and nothing else. */
  lemma EntriesFill(table: seq<Slot>, q: nat, x: Tuple)
    requires q < |table| && table[q].Empty?
    ensures multiset(Entries(table[q := Full(x)])) == multiset(Entries(table)) + multiset{x}
  {
    SlotBetween(table, q, Full(x));
    SlotBetween(table, q, Empty);
    assert table[q := Empty] == table;
    EntriesAround(table[..q], Full(x), table[q + 1..]);
    EntriesAround(table[..q], Empty, table[q + 1..]);
    EntriesOfOne(Full(x));
    EntriesOfOne(Empty);
  }

  lemma {:induction false} EntriesFull(table: seq<Slot>)
    ensures |Entries(table)| <= |table|
    ensures (forall q: nat :: q < |table| ==> table[q].Full?) ==> |Entries(table)| == |table|
  {
    if table != [] {
      EntriesFull(table[..|table| - 1]);
    }
  }

  /** A table with as many tuples as slots has no empty slot. */
  lemma {:induction false} FullTable(table: seq<Slot>, q: nat)
    requires |Entries(table)| >= |table| && q < |table|
    ensures table[q].Full?
  {
    EntriesFull(table[..|table| - 1]);
    if q < |table| - 1 {
      FullTable(table[..|table| - 1], q);
    }
  }

  lemma {:induction false} NoEntries(table: seq<Slot>)
    requires forall q: nat :: q < |table| ==> table[q].Empty?
    ensures Entries(table) == []
  {
    if table != [] {
      NoEntries(table[..|table| - 1]);
    }
  }

  /** A walk over the whole table has seen every slot, so a table with room stops it earlier. */
  lemma WalkIsShort(table: seq<Slot>, home: nat, d: nat)
    requires home < |table| && Walked(table, home, d) && |Entries(table)| < |table|
    ensures d < |table|
  {
    if d >= |table| {
      forall q: nat | q < |table|
        ensures table[q].Full?
      {
        DistAt(home, q, |table|);
      }
      EntriesFull(table);
    }
  }

  /** Putting a tuple into the first empty slot on its way keeps every tuple reachable. */
  lemma FillKeepsValid(table: seq<Slot>, r: Radix, x: Tuple, d: nat)
    requires Valid(table, r) && Walked(table, Hash(r, x.key), d) && d < |table|
    requires table[At(Hash(r, x.key), d, |table|)].Empty?
    ensures Valid(table[At(Hash(r, x.key), d, |table|) := Full(x)], r)
  {
    var home := Hash(r, x.key);
    var q := At(home, d, |table|);
    var table' := table[q := Full(x)];
    AtApart(home, d, |table|);
    forall q': nat | q' < |table'|
      ensures Reached(table', r, q')
    {
      assert Reached(table, r, q');
    }
  }

  /** How far an insertion walks from the `d`-th slot on. */
  function FirstEmpty(table: seq<Slot>, home: nat, d: nat): (e: nat)
    requires table != [] && d <= |table|
    ensures d <= e <= |table|
    decreases |table| - d
  {
    if d < |table| && table[At(home, d, |table|)].Full? then FirstEmpty(table, home, d + 1) else d
  }

  lemma {:induction false} FirstEmptyWalks(table: seq<Slot>, home: nat, d: nat)
    requires table != [] && d <= |table| && Walked(table, home, d)
    ensures Walked(table, home, FirstEmpty(table, home, d))
    decreases |table| - d
  {
    if d < |table| && table[At(home, d, |table|)].Full? {
      FirstEmptyWalks(table, home, d + 1);
    }
  }

  /** An insertion into a table with room finds an empty slot. */
  lemma FirstEmptyExists(table: seq<Slot>, home: nat)
    requires home < |table| && |Entries(table)| < |table|
    ensures var e := FirstEmpty(table, home, 0);
      e < |table| && Walked(table, home, e) && table[At(home, e, |table|)].Empty?
  {
    FirstEmptyWalks(table, home, 0);
    WalkIsShort(table, home, FirstEmpty(table, home, 0));
    FirstEmptyIsEmpty(table, home, 0);
  }

  lemma {:induction false} FirstEmptyIsEmpty(table: seq<Slot>, home: nat, d: nat)
    requires table != [] && d <= |table|
    ensures var e := FirstEmpty(table, home, d); e < |table| ==> table[At(home, e, |table|)].Empty?
    decreases |table| - d
  {
    if d < |table| && table[At(home, d, |table|)].Full? {
      FirstEmptyIsEmpty(table, home, d + 1);
    }
  }

  // ----- lookups -----

  /** A lookup for `key` passes this slot. */
  predicate Passes(slot: Slot, key: nat) {
    slot.Full? && slot.tuple.key != key
  }

  ghost predicate Stops(table: seq<Slot>, key: nat) {
    exists q: nat :: q < |table| && !Passes(table[q], key)
  }

  /** A lookup has passed the first `d` slots. */
  ghost predicate Passed(table: seq<Slot>, home: nat, key: nat, d: nat)
    requires table != []
  {
    forall e: nat {:trigger At(home, e, |table|)} :: e < d ==> Passes(table[At(home, e, |table|)], key)
  }

  /** How far a lookup walks from the `d`-th slot on, at most once around. */
  function FirstStop(table: seq<Slot>, home: nat, key: nat, d: nat): (e: nat)
    requires table != [] && d <= |table|
    ensures d <= e <= |table|
    decreases |table| - d
  {
    if d < |table| && Passes(table[At(home, d, |table|)], key) then FirstStop(table, home, key, d + 1) else d
  }

  lemma {:induction false} FirstStopPasses(table: seq<Slot>, home: nat, key: nat, d: nat)
    requires table != [] && d <= |table| && Passed(table, home, key, d)
    ensures var e := FirstStop(table, home, key, d);
      Passed(table, home, key, e) && (e < |table| ==> !Passes(table[At(home, e, |table|)], key))
    decreases |table| - d
  {
    if d < |table| && Passes(table[At(home, d, |table|)], key) {
      FirstStopPasses(table, home, key, d + 1);
    }
  }

  ghost predicate Absent(table: seq<Slot>, key: nat) {
    forall q: nat :: q < |table| && table[q].Full? ==> table[q].tuple.key != key
  }

  /** Where a lookup meets an empty slot, the key is nowhere in the table. */
  lemma EmptyMeansAbsent(table: seq<Slot>, r: Radix, key: nat, d: nat)
    requires Valid(table, r) && d < |table| && Passed(table, Hash(r, key), key, d)
    requires table[At(Hash(r, key), d, |table|)].Empty?
    ensures Absent(table, key)
  {
    var home := Hash(r, key);
    forall q: nat | q < |table| && table[q].Full?
      ensures table[q].tuple.key != key
    {
      if table[q].tuple.key == key {
        assert Reached(table, r, q);
        DistAt(home, q, |table|);
      }
    }
  }

  /** So it is when a lookup is back where it started. */
  lemma AroundMeansAbsent(table: seq<Slot>, r: Radix, key: nat)
    requires |table| == r.fanout && Passed(table, Hash(r, key), key, |table|)
    ensures Absent(table, key)
  {
    var home := Hash(r, key);
    forall q: nat | q < |table| && table[q].Full?
      ensures table[q].tuple.key != key
    {
      DistAt(home, q, |table|);
      assert Passes(table[At(home, Dist(home, q, |table|), |table|)], key);
    }
  }

  /** A lookup without a counter stops if and only if some slot is empty or holds the key: otherwise
      it passes every slot that it ever comes to. */
  lemma PlainLookupStops(table: seq<Slot>, home: nat, key: nat)
    requires home < |table|
    ensures (exists d: nat :: !Passes(table[At(home, d, |table|)], key))
        <==> Stops(table, key)
  {
    if q: nat :| q < |table| && !Passes(table[q], key) {
      DistAt(home, q, |table|);
      assert !Passes(table[At(home, Dist(home, q, |table|), |table|)], key);
    }
  }

  /** What a lookup finds, for a table that holds `rel`. */
  ghost predicate Finds(found: Slot, rel: seq<Tuple>, key: nat) {
    if found.Full? then found.tuple in rel && found.tuple.key == key
    else forall x :: x in rel ==> x.key != key
  }

  lemma FindsEntry(table: seq<Slot>, rel: seq<Tuple>, q: nat, key: nat)
    requires multiset(Entries(table)) == multiset(rel) && q < |table| && table[q].Full? && table[q].tuple.key == key
    ensures Finds(table[q], rel, key)
  {
    EntryAt(table, q);
    assert table[q].tuple in multiset(rel);
  }

  lemma FindsNothing(table: seq<Slot>, rel: seq<Tuple>, key: nat)
    requires multiset(Entries(table)) == multiset(rel) && Absent(table, key)
    ensures Finds(Empty, rel, key)
  {
    forall x | x in rel
      ensures x.key != key
    {
      assert x in multiset(Entries(table));
      var q := EntrySlot(table, x);
    }
  }

  /** The slot that a lookup ends at; none if it came around. */
  function Outcome(table: seq<Slot>, home: nat, key: nat): Slot
    requires table != []
  {
    var e := FirstStop(table, home, key, 0);
    if e < |table| then table[At(home, e, |table|)] else Empty
  }

  /** In a table that holds `rel`, the lookup finds the key if it is there, and nothing if not. */
  lemma LookupIsRight(table: seq<Slot>, r: Radix, rel: seq<Tuple>, key: nat)
    requires Valid(table, r) && multiset(Entries(table)) == multiset(rel)
    ensures Finds(Outcome(table, Hash(r, key), key), rel, key)
  {
    var home := Hash(r, key);
    var e := FirstStop(table, home, key, 0);
    FirstStopPasses(table, home, key, 0);
    if e == |table| {
      AroundMeansAbsent(table, r, key);
      FindsNothing(table, rel, key);
    } else {
      var q := At(home, e, |table|);
      if table[q].Empty? {
        EmptyMeansAbsent(table, r, key, e);
        FindsNothing(table, rel, key);
      } else {
        FindsEntry(table, rel, q, key);
      }
    }
  }

  /** The lookup without a counter stops within one round where it stops at all. */
  lemma StopsWithinRound(table: seq<Slot>, home: nat, key: nat)
    requires home < |table| && Stops(table, key)
    ensures FirstStop(table, home, key, 0) < |table|
  {
    var q: nat :| q < |table| && !Passes(table[q], key);
    FirstStopPasses(table, home, key, 0);
    DistAt(home, q, |table|);
  }

  lemma PresentKeyStops(table: seq<Slot>, rel: seq<Tuple>, x: Tuple)
    requires multiset(Entries(table)) == multiset(rel) && x in rel
    ensures Stops(table, x.key)
  {
    assert x in multiset(rel);
    var q := EntrySlot(table, x);
    assert !Passes(table[q], x.key);
  }

  lemma OutcomeKey(table: seq<Slot>, home: nat, key: nat)
    requires table != []
    ensures var found := Outcome(table, home, key); found.Full? ==> found.tuple.key == key
  {
    FirstStopPasses(table, home, key, 0);
  }

  ghost predicate EveryKeyOccurs(R: seq<Tuple>, S: seq<Tuple>) {
    forall s :: s in S ==> exists x :: x in R && x.key == s.key
  }

  // ----- what a lookup adds to the totals -----

  lemma {:induction false} ProbeAbsent(w: Measure, rel: seq<Tuple>, s: Tuple)
    requires forall x :: x in rel ==> x.key != s.key
    ensures ProbeOne(w, rel, s) == 0
  {
    if rel != [] {
      ProbeAbsent(w, rel[..|rel| - 1], s);
    }
  }

  lemma {:induction false} ProbeZero(rel: seq<Tuple>, s: Tuple)
    requires ProbeOne(Matched, rel, s) == 0
    ensures forall x :: x in rel ==> x.key != s.key
  {
    if rel != [] {
      ProbeZero(rel[..|rel| - 1], s);
      assert rel == rel[..|rel| - 1] + [rel[|rel| - 1]];
    }
  }

  lemma {:induction false} ProbeUnique(w: Measure, rel: seq<Tuple>, s: Tuple, x: Tuple)
    requires ProbeOne(Matched, rel, s) <= 1 && x in rel && x.key == s.key
    ensures ProbeOne(w, rel, s) == Weight(w, x, s)
  {
    var rest, last := rel[..|rel| - 1], rel[|rel| - 1];
    if last.key == s.key {
      ProbeZero(rest, s);
      ProbeAbsent(w, rest, s);
      assert x == last;
    } else {
      ProbeUnique(w, rest, s, x);
    }
  }

  /** What a lookup adds to a number. */
  function Found(w: Measure, found: Slot, s: Tuple): nat {
    if found.Full? then Weight(w, found.tuple, s) else 0
  }

  function LookupSum(w: Measure, table: seq<Slot>, r: Radix, S: seq<Tuple>): nat
    requires |table| == r.fanout
  {
    if S == [] then 0
    else
      var s := S[|S| - 1];
      LookupSum(w, table, r, S[..|S| - 1]) + Found(w, Outcome(table, Hash(r, s.key), s.key), s)
  }

  function LookupTotals(table: seq<Slot>, r: Radix, S: seq<Tuple>): Totals
    requires |table| == r.fanout
  {
    Sums(LookupSum(Matched, table, r, S), LookupSum(Checksum, table, r, S))
  }

  /** One accumulation of a lookup, with the flag and the row id that it read. */
  function AddLookup(acc: Totals, matched: bool, rowId: nat, s: Tuple): Totals {
    var flag := if matched then 1 else 0;
    Totals(Word(acc.matched + flag), Word(acc.checksum + (s.rowId + rowId) * flag))
  }

  lemma AddOneLookup(acc: Totals, table: seq<Slot>, r: Radix, S: seq<Tuple>, s: Tuple, matched: bool, rowId: nat)
    requires |table| == r.fanout && acc == LookupTotals(table, r, S)
    requires var found := Outcome(table, Hash(r, s.key), s.key);
      found.Full? == matched && (matched ==> found.tuple == Tuple(s.key, rowId))
    ensures AddLookup(acc, matched, rowId, s) == LookupTotals(table, r, S + [s])
  {
    var found := Outcome(table, Hash(r, s.key), s.key);
    assert (S + [s])[..|S|] == S;
    WordPlus(LookupSum(Matched, table, r, S), Found(Matched, found, s));
    WordPlus(LookupSum(Checksum, table, r, S), Found(Checksum, found, s));
  }

  ghost predicate AtMostOne(rel: seq<Tuple>, S: seq<Tuple>) {
    forall s :: s in S ==> ProbeOne(Matched, rel, s) <= 1
  }

  lemma FoundIsProbe(w: Measure, rel: seq<Tuple>, found: Slot, s: Tuple)
    requires Finds(found, rel, s.key) && ProbeOne(Matched, rel, s) <= 1
    ensures Found(w, found, s) == ProbeOne(w, rel, s)
  {
    if found.Full? {
      ProbeUnique(w, rel, s, found.tuple);
    } else {
      ProbeAbsent(w, rel, s);
    }
  }

  lemma FoundCounts(rel: seq<Tuple>, found: Slot, s: Tuple)
    requires Finds(found, rel, s.key)
    ensures Found(Matched, found, s) <= ProbeOne(Matched, rel, s)
    ensures Found(Matched, found, s) == ProbeOne(Matched, rel, s) <==> ProbeOne(Matched, rel, s) <= 1
  {
    if found.Full? {
      if ProbeOne(Matched, rel, s) == 0 {
        ProbeZero(rel, s);
      }
    } else {
      ProbeAbsent(Matched, rel, s);
    }
  }

  /** Lookups in a table with no key twice compute the nested-loop join. */
  lemma {:induction false} LookupsAreTheJoin(w: Measure, table: seq<Slot>, r: Radix, rel: seq<Tuple>, S: seq<Tuple>)
    requires Valid(table, r) && multiset(Entries(table)) == multiset(rel) && AtMostOne(rel, S)
    ensures LookupSum(w, table, r, S) == NestedLoop(w, rel, S)
  {
    if S != [] {
      var S', s := S[..|S| - 1], S[|S| - 1];
      assert s in S && forall x :: x in S' ==> x in S;
      LookupsAreTheJoin(w, table, r, rel, S');
      LookupIsRight(table, r, rel, s.key);
      FoundIsProbe(w, rel, Outcome(table, Hash(r, s.key), s.key), s);
    }
  }

  /** They never count too many matches, and they count them all exactly when no probe key occurs
      twice on the build side. */
  lemma {:induction false} LookupsUndercount(table: seq<Slot>, r: Radix, rel: seq<Tuple>, S: seq<Tuple>)
    requires Valid(table, r) && multiset(Entries(table)) == multiset(rel)
    ensures LookupSum(Matched, table, r, S) <= NestedLoop(Matched, rel, S)
    ensures LookupSum(Matched, table, r, S) == NestedLoop(Matched, rel, S) <==> AtMostOne(rel, S)
  {
    if S != [] {
      var S', s := S[..|S| - 1], S[|S| - 1];
      assert S == S' + [s];
      LookupsUndercount(table, r, rel, S');
      LookupIsRight(table, r, rel, s.key);
      FoundCounts(rel, Outcome(table, Hash(r, s.key), s.key), s);
    }
  }

  /** The totals of lookups are those of the join exactly when no probe key occurs twice on the
      build side, as long as the number of matches fits a counter. */
  lemma LookupTotalsAreTheJoin(table: seq<Slot>, r: Radix, rel: seq<Tuple>, S: seq<Tuple>)
    requires Valid(table, r) && multiset(Entries(table)) == multiset(rel)
    ensures AtMostOne(rel, S) ==> IsJoin(LookupTotals(table, r, S), rel, S)
    ensures NestedLoop(Matched, rel, S) < WORD && IsJoin(LookupTotals(table, r, S), rel, S) ==> AtMostOne(rel, S)
  {
    LookupsUndercount(table, r, rel, S);
    if AtMostOne(rel, S) {
      LookupsAreTheJoin(Matched, table, r, rel, S);
      LookupsAreTheJoin(Checksum, table, r, rel, S);
    }
  }
}
