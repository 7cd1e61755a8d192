/** `bc_join`: chains threaded through an array of row positions. */
module BucketChaining {
  import opened Bits
  import opened Relations
  import opened Accumulators

  /** Positions count from 1; 0 ends a chain.  Links only lead down. */
  ghost predicate LinksDown(next: seq<nat>) {
    forall j: nat :: j < |next| ==> next[j] <= j
  }

  /** The positions of a chain, from its head. */
  ghost function Chain(next: seq<nat>, hit: nat): (c: seq<nat>)
    requires LinksDown(next) && hit <= |next|
    ensures forall k: nat :: k < |c| ==> c[k] < |next|
  {
    if hit == 0 then [] else [hit - 1] + Chain(next, next[hit - 1])
  }

  /** The positions below `n` that hash to bucket `h`, highest first. */
  ghost function Members(R: seq<Tuple>, r: Radix, h: nat, n: nat): (m: seq<nat>)
    requires n <= |R|
    ensures forall k: nat :: k < |m| ==> m[k] < |R|
  {
    if n == 0 then []
    else if Hash(r, R[n - 1].key) == h then [n - 1] + Members(R, r, h, n - 1)
    else Members(R, r, h, n - 1)
  }

  ghost function TuplesAt(R: seq<Tuple>, at: seq<nat>): seq<Tuple>
    requires forall k: nat :: k < |at| ==> at[k] < |R|
  {
    if at == [] then [] else [R[at[0]]] + TuplesAt(R, at[1..])
  }

  /** Exactly the positions that hash to the bucket. */
  lemma {:induction false} MembersExact(R: seq<Tuple>, r: Radix, h: nat, n: nat, j: nat)
    requires n <= |R|
    ensures j in Members(R, r, h, n) <==> j < n && Hash(r, R[j].key) == h
  {
    if n > 0 {
      MembersExact(R, r, h, n - 1, j);
    }
  }

  /** Strictly decreasing, from below `n`. */
  ghost predicate Falling(m: seq<nat>, n: nat) {
    m == [] || (m[0] < n && Falling(m[1..], m[0]))
  }

  /** Each once, highest first. */
  lemma {:induction false} MembersFall(R: seq<Tuple>, r: Radix, h: nat, n: nat)
    requires n <= |R|
    ensures Falling(Members(R, r, h, n), n)
  {
    if n > 0 {
      MembersFall(R, r, h, n - 1);
      var rest := Members(R, r, h, n - 1);
      assert ([n - 1] + rest)[1..] == rest;
    }
  }

  lemma {:induction false} ProbeMembers(w: Measure, R: seq<Tuple>, r: Radix, h: nat, n: nat, s: Tuple)
    requires n <= |R|
    ensures ProbeOne(w, TuplesAt(R, Members(R, r, h, n)), s) == ProbeOne(w, Sel(R[..n], r, h), s)
  {
    if n > 0 {
      ProbeMembers(w, R, r, h, n - 1, s);
      Snoc(R, n - 1);
      SelSnoc(R[..n - 1], R[n - 1], r, h);
      if Hash(r, R[n - 1].key) == h {
        ProbeSnoc(w, Sel(R[..n - 1], r, h), R[n - 1], s);
        var rest := Members(R, r, h, n - 1);
        assert ([n - 1] + rest)[1..] == rest;
        ProbeConcat(w, [R[n - 1]], TuplesAt(R, rest), s);
        ProbeSnoc(w, [], R[n - 1], s);
        assert [] + [R[n - 1]] == [R[n - 1]];
      } else {
        assert Sel(R[..n], r, h) == Sel(R[..n - 1], r, h);
      }
    }
  }

  lemma {:induction false} ChainKept(next: seq<nat>, j: nat, v: nat, hit: nat)
    requires LinksDown(next) && j < |next| && v <= j && hit <= j
    ensures LinksDown(next[j := v]) && Chain(next[j := v], hit) == Chain(next, hit)
  {
    if hit > 0 {
      ChainKept(next, j, v, next[hit - 1]);
    }
  }

  ghost predicate Heads(R: seq<Tuple>, r: Radix, bucket: seq<nat>, next: seq<nat>, n: nat, h: nat)
    requires n <= |R| && h < |bucket| && LinksDown(next)
  {
    bucket[h] <= n && bucket[h] <= |next| && Chain(next, bucket[h]) == Members(R, r, h, n)
  }

  /** Every bucket heads the chain of the positions inserted so far. */
  ghost predicate Built(R: seq<Tuple>, r: Radix, bucket: seq<nat>, next: seq<nat>, n: nat) {
    && n <= |R| == |next| && |bucket| == r.fanout && LinksDown(next)
    && forall h: nat :: h < r.fanout ==> Heads(R, r, bucket, next, n, h)
  }

  lemma BuildOne(R: seq<Tuple>, r: Radix, bucket: seq<nat>, next: seq<nat>, n: nat)
    requires Built(R, r, bucket, next, n) && n < |R|
    ensures var h := Hash(r, R[n].key);
      Built(R, r, bucket[h := n + 1], next[n := bucket[h]], n + 1)
  {
    var h := Hash(r, R[n].key);
    assert Heads(R, r, bucket, next, n, h);
    var bucket', next', n' := bucket[h := n + 1], next[n := bucket[h]], n + 1;
    forall g: nat | g < r.fanout
      ensures Heads(R, r, bucket', next', n', g)
    {
      assert Heads(R, r, bucket, next, n, g);
      ChainKept(next, n, bucket[h], bucket[g]);
    }
  }

  method Build(R: seq<Tuple>, r: Radix, bucket: array<nat>, next: array<nat>)
    requires bucket.Length == r.fanout && next.Length == |R| && bucket != next
    requires (forall h :: 0 <= h < bucket.Length ==> bucket[h] == 0) && (forall j :: 0 <= j < next.Length ==> next[j] == 0)
    modifies bucket, next
    ensures Built(R, r, bucket[..], next[..], |R|)
  {
    for idx := 0 to |R|
      invariant Built(R, r, bucket[..], next[..], idx)
    {
      ghost var b, n := bucket[..], next[..];
      BuildOne(R, r, b, n, idx);
      var h := Hash(r, R[idx].key);
      next[idx] := bucket[h];
      assert next[..] == n[idx := b[h]] && bucket[..] == b;
      bucket[h] := idx + 1;
      assert bucket[..] == b[h := idx + 1];
    }
  }

  lemma ChainStep(R: seq<Tuple>, next: seq<nat>, hit: nat)
    requires LinksDown(next) && |R| == |next| && 0 < hit <= |next|
    ensures TuplesAt(R, Chain(next, hit)) == [R[hit - 1]] + TuplesAt(R, Chain(next, next[hit - 1]))
  {
    var rest := Chain(next, next[hit - 1]);
    assert ([hit - 1] + rest)[1..] == rest;
  }

  /** Walking one chain adds what probing the whole relation would. */
  method WalkChain(R: seq<Tuple>, next: array<nat>, head: nat, s: Tuple, acc0: Totals, ghost S: seq<Tuple>)
    returns (acc: Totals)
    requires LinksDown(next[..]) && next.Length == |R| && head <= |R| && Partly(acc0, R, S, [], s)
    ensures Partly(acc, R, S, TuplesAt(R, Chain(next[..], head)), s)
  {
    acc := acc0;
    var hit: nat := head;
    ghost var links, seen := next[..], [];
    while hit > 0
      invariant hit <= |R|
      invariant seen + TuplesAt(R, Chain(links, hit)) == TuplesAt(R, Chain(links, head))
      invariant Partly(acc, R, S, seen, s)
      decreases hit
    {
      ChainStep(R, links, hit);
      PartlyOne(acc, R, S, seen, R[hit - 1], s);
      acc := AddPair(acc, R[hit - 1], s);
      seen := seen + [R[hit - 1]];
      assert next[hit - 1] == links[hit - 1];
      hit := next[hit - 1];
    }
    assert seen == TuplesAt(R, Chain(links, head));
  }

  lemma ChainIsEnough(R: seq<Tuple>, r: Radix, bucket: seq<nat>, next: seq<nat>, s: Tuple)
    requires Built(R, r, bucket, next, |R|)
    ensures bucket[Hash(r, s.key)] <= |R|
    ensures forall w :: ProbeOne(w, TuplesAt(R, Chain(next, bucket[Hash(r, s.key)])), s) == ProbeOne(w, R, s)
  {
    var h := Hash(r, s.key);
    assert Heads(R, r, bucket, next, |R|, h);
    forall w
      ensures ProbeOne(w, TuplesAt(R, Chain(next, bucket[h])), s) == ProbeOne(w, R, s)
    {
      ProbeMembers(w, R, r, h, |R|, s);
      assert R[..|R|] == R;
      ProbeSel(w, R, r, h, s);
    }
  }

  /** The kernel: the totals of the nested-loop join, with arbitrary duplicates, for a hash table of
      any size. */
  method BcJoin(R: seq<Tuple>, S: seq<Tuple>, r: Radix) returns (acc: Totals)
    ensures IsJoin(acc, R, S)
  {
    var bucket, next := new nat[r.fanout](_ => 0), new nat[|R|](_ => 0);
    Build(R, r, bucket, next);
    acc := ZERO;
    PartlyZero(R);
    for idx := 0 to |S|
      invariant Built(R, r, bucket[..], next[..], |R|)
      invariant IsJoin(acc, R, S[..idx])
    {
      PartlyStart(acc, R, S[..idx], S[idx]);
      ChainIsEnough(R, r, bucket[..], next[..], S[idx]);
      var head := bucket[Hash(r, S[idx].key)];
      ghost var seen := TuplesAt(R, Chain(next[..], head));
      acc := WalkChain(R, next, head, S[idx], acc, S[..idx]);
      PartlyEnd(acc, R, S, seen, idx);
    }
    WholeJoin(acc, R, S);
  }
}
