/** What the linear-probing kernels compute for every build side, keys that occur twice included: each
    probe tuple is joined with one tuple, and in a table that was filled in order with the first. */
module FirstMatches {
  import opened Bits
  import opened Relations
  import opened Accumulators
  import opened Probing

  ghost predicate Occurs(rel: seq<Tuple>, key: nat) {
    exists j: nat :: j < |rel| && rel[j].key == key
  }

  /** Where a key occurs first. */
  ghost function FirstIndex(rel: seq<Tuple>, key: nat): (k: nat)
    requires Occurs(rel, key)
    ensures k < |rel| && rel[k].key == key
    ensures forall j: nat :: j < k ==> rel[j].key != key
  {
    if rel[0].key == key then 0
    else
      assert Occurs(rel[1..], key) by {
        var j: nat :| j < |rel| && rel[j].key == key;
        assert rel[1..][j - 1].key == key;
      }
      FirstIndex(rel[1..], key) + 1
  }

  /** The probe tuples whose key occurs. */
  ghost function Hits(rel: seq<Tuple>, S: seq<Tuple>): nat {
    if S == [] then 0 else Hits(rel, S[..|S| - 1]) + (if Occurs(rel, S[|S| - 1].key) then 1 else 0)
  }

  /** Their row ids, each with that of the first tuple with the key. */
  ghost function HitIds(rel: seq<Tuple>, S: seq<Tuple>): nat {
    if S == [] then 0
    else
      var s := S[|S| - 1];
      HitIds(rel, S[..|S| - 1]) + (if Occurs(rel, s.key) then s.rowId + rel[FirstIndex(rel, s.key)].rowId else 0)
  }

  // ----- filling a table in order -----

  /** A lookup of the key comes to the first of the tuples that were put into the table. */
  ghost predicate FindsFirst(table: seq<Slot>, r: Radix, rel: seq<Tuple>, key: nat)
    requires table != []
  {
    Outcome(table, Hash(r, key), key) == if Occurs(rel, key) then Full(rel[FirstIndex(rel, key)]) else Empty
  }

  ghost predicate InOrder(table: seq<Slot>, r: Radix, rel: seq<Tuple>)
    requires table != []
  {
    forall key: nat :: FindsFirst(table, r, rel, key)
  }

  lemma OccursMember(rel: seq<Tuple>, key: nat)
    ensures Occurs(rel, key) <==> exists x :: x in rel && x.key == key
  {
    if x :| x in rel && x.key == key {
      var j: nat :| j < |rel| && rel[j] == x;
    }
  }

  lemma FirstUnique(rel: seq<Tuple>, key: nat, k: nat)
    requires k < |rel| && rel[k].key == key && forall j: nat :: j < k ==> rel[j].key != key
    ensures Occurs(rel, key) && FirstIndex(rel, key) == k
  {
    assert Occurs(rel, key);
    assert !(k < FirstIndex(rel, key));
  }

  lemma OccursSnoc(rel: seq<Tuple>, x: Tuple, key: nat)
    ensures Occurs(rel + [x], key) <==> Occurs(rel, key) || x.key == key
    ensures Occurs(rel, key) ==> FirstIndex(rel + [x], key) == FirstIndex(rel, key)
    ensures !Occurs(rel, key) && x.key == key ==> FirstIndex(rel + [x], key) == |rel|
  {
    if j: nat :| j < |rel| && rel[j].key == key {
      assert (rel + [x])[j].key == key;
      FirstUnique(rel + [x], key, FirstIndex(rel, key));
    } else if x.key == key {
      assert (rel + [x])[|rel|].key == key;
      FirstUnique(rel + [x], key, |rel|);
    }
  }

  /** A lookup that ends at a tuple walks as before when another slot is filled. */
  lemma {:induction false} FillKeepsStop(table: seq<Slot>, home: nat, key: nat, d: nat, q: nat, x: Tuple)
    requires table != [] && d <= |table| && q < |table| && table[q].Empty?
    requires var e := FirstStop(table, home, key, d); e < |table| && table[At(home, e, |table|)].Full?
    ensures FirstStop(table[q := Full(x)], home, key, d) == FirstStop(table, home, key, d)
    decreases |table| - d
  {
    if Passes(table[At(home, d, |table|)], key) {
      FillKeepsStop(table, home, key, d + 1, q, x);
    }
  }

  lemma FillKeepsOutcome(table: seq<Slot>, home: nat, key: nat, q: nat, x: Tuple)
    requires table != [] && q < |table| && table[q].Empty? && Outcome(table, home, key).Full?
    ensures Outcome(table[q := Full(x)], home, key) == Outcome(table, home, key)
  {
    FillKeepsStop(table, home, key, 0, q, x);
  }

  /** Putting a tuple into an empty slot keeps what lookups come to first. */
  lemma FillKeepsOrder(table: seq<Slot>, r: Radix, rel: seq<Tuple>, x: Tuple, q: nat)
    requires table != [] && InOrder(table, r, rel) && q < |table| && table[q].Empty?
    requires Valid(table[q := Full(x)], r) && multiset(Entries(table[q := Full(x)])) == multiset(rel + [x])
    ensures InOrder(table[q := Full(x)], r, rel + [x])
  {
    var table', rel' := table[q := Full(x)], rel + [x];
    forall key: nat
      ensures FindsFirst(table', r, rel', key)
    {
      assert FindsFirst(table, r, rel, key);
      FillFindsFirst(table, r, rel, x, q, key);
    }
  }

  lemma FillFindsFirst(table: seq<Slot>, r: Radix, rel: seq<Tuple>, x: Tuple, q: nat, key: nat)
    requires table != [] && FindsFirst(table, r, rel, key) && q < |table| && table[q].Empty?
    requires Valid(table[q := Full(x)], r) && multiset(Entries(table[q := Full(x)])) == multiset(rel + [x])
    ensures FindsFirst(table[q := Full(x)], r, rel + [x], key)
  {
    OccursSnoc(rel, x, key);
    if Occurs(rel, key) {
      FillKeepsOutcome(table, Hash(r, key), key, q, x);
    } else {
      LookupIsRight(table[q := Full(x)], r, rel + [x], key);
      OccursMember(rel, key);
      OccursMember(rel + [x], key);
    }
  }

  // ----- the totals -----

  lemma FoundIsHit(rel: seq<Tuple>, found: Slot, key: nat)
    requires Finds(found, rel, key)
    ensures found.Full? <==> Occurs(rel, key)
  {
    OccursMember(rel, key);
  }

  /** In every table of these tuples, lookups count the probe tuples whose key occurs. */
  lemma {:induction false} LookupsCountHits(table: seq<Slot>, r: Radix, rel: seq<Tuple>, S: seq<Tuple>)
    requires Valid(table, r) && multiset(Entries(table)) == multiset(rel)
    ensures LookupSum(Matched, table, r, S) == Hits(rel, S)
  {
    if S != [] {
      var s := S[|S| - 1];
      LookupsCountHits(table, r, rel, S[..|S| - 1]);
      LookupIsRight(table, r, rel, s.key);
      FoundIsHit(rel, Outcome(table, Hash(r, s.key), s.key), s.key);
      OutcomeKey(table, Hash(r, s.key), s.key);
    }
  }

  /** In a table that was filled in order, they add up the row ids of the first tuples. */
  lemma {:induction false} LookupsAddFirst(table: seq<Slot>, r: Radix, rel: seq<Tuple>, S: seq<Tuple>)
    requires |table| == r.fanout && InOrder(table, r, rel)
    ensures LookupSum(Checksum, table, r, S) == HitIds(rel, S)
  {
    if S != [] {
      var s := S[|S| - 1];
      LookupsAddFirst(table, r, rel, S[..|S| - 1]);
      assert FindsFirst(table, r, rel, s.key);
    }
  }

  lemma {:induction false} AllAreHits(rel: seq<Tuple>, S: seq<Tuple>)
    requires EveryKeyOccurs(rel, S)
    ensures Hits(rel, S) == |S|
  {
    if S != [] {
      assert S[|S| - 1] in S && forall s :: s in S[..|S| - 1] ==> s in S;
      AllAreHits(rel, S[..|S| - 1]);
      OccursMember(rel, S[|S| - 1].key);
    }
  }

  lemma EmptyInOrder(table: seq<Slot>, r: Radix)
    requires table != [] && forall q: nat :: q < |table| ==> table[q].Empty?
    ensures InOrder(table, r, [])
  {
  }
}
