/** The prefetch cache of the shared-table builds and probes: a ring of hash keys, filled ahead of the
    tuple that is being worked on. */
module PrefetchRing {
  import opened Bits
  import opened Relations
  import opened Blocks

  /** Slots of the ring are shared only by tuples a whole ring apart. */
  lemma {:induction false} RingApart(i: nat, j: nat, n: nat)
    requires 0 < n && i < j < i + n
    ensures Off(i, n) != Off(j, n)
  {
    if i >= n {
      RingApart(i - n, j - n, n);
    } else if j >= n {
      assert Off(j, n) == Off(j - n, n) == j - n;
    }
  }

  /** The ring holds the hash keys of the next tuples. */
  ghost predicate Ahead(ring: seq<nat>, rel: seq<Tuple>, r: Radix, from: nat, to: nat)
    requires ring != []
  {
    forall j: nat {:trigger Off(j, |ring|)} :: from <= j < to && j < |rel| ==> ring[Off(j, |ring|)] == Hash(r, rel[j].key)
  }

  lemma StoreAhead(ring: seq<nat>, rel: seq<Tuple>, r: Radix, i: nat)
    requires ring != [] && Ahead(ring, rel, r, i, i + |ring|) && i + |ring| < |rel|
    ensures Ahead(ring[Off(i, |ring|) := Hash(r, rel[i + |ring|].key)], rel, r, i + 1, i + 1 + |ring|)
  {
    var n := |ring|;
    forall j: nat | i + 1 <= j < i + 1 + n && j < |rel|
      ensures ring[Off(i, n) := Hash(r, rel[i + n].key)][Off(j, n)] == Hash(r, rel[j].key)
    {
      if j < i + n {
        RingApart(i, j, n);
      }
    }
  }

  /** The three loops around an insertion or a lookup: fill, work and refill, work off the rest.
      `used` is the hash key that each tuple is inserted or looked up with: always its own.  The
      relation must be at least as long as the ring, because the first loop fills all of it. */
  method WithRing(rel: seq<Tuple>, r: Radix, n: nat) returns (used: seq<nat>)
    requires 0 < n <= |rel|
    ensures |used| == |rel| && forall i: nat :: i < |rel| ==> used[i] == Hash(r, rel[i].key)
  {
    var ring := new nat[n](_ => 0);
    for idx := 0 to n
      invariant Ahead(ring[..], rel, r, 0, idx)
    {
      ghost var before := ring[..];
      forall j: nat | j < idx {
        RingApart(j, idx, n);
      }
      ring[Off(idx, n)] := Hash(r, rel[idx].key);
      assert ring[..] == before[Off(idx, n) := Hash(r, rel[idx].key)];
    }
    used := [];
    for idx := 0 to |rel| - n
      invariant |used| == idx && forall i: nat :: i < idx ==> used[i] == Hash(r, rel[i].key)
      invariant Ahead(ring[..], rel, r, idx, idx + n)
    {
      ghost var before := ring[..];
      used := used + [ring[Off(idx, n)]];
      StoreAhead(before, rel, r, idx);
      ring[Off(idx, n)] := Hash(r, rel[idx + n].key);
      assert ring[..] == before[Off(idx, n) := Hash(r, rel[idx + n].key)];
    }
    for idx := |rel| - n to |rel|
      invariant |used| == idx && forall i: nat :: i < idx ==> used[i] == Hash(r, rel[i].key)
    {
      used := used + [ring[Off(idx, n)]];
    }
  }
}
