/** Relations, the nested-loop equi-join that every algorithm must agree with, and the laws that
    let a join be cut into pieces. */
module Relations {
  import opened Bits

  datatype Tuple = Tuple(key: nat, rowId: nat)

  /** A join reports two numbers: `matched_cnt` and `checksum`. */
  datatype Measure = Matched | Checksum

  /** What one pair of tuples adds to a number. */
  function Weight(w: Measure, r: Tuple, s: Tuple): nat {
    if r.key != s.key then 0
    else if w == Matched then 1 else r.rowId + s.rowId
  }

  function ProbeOne(w: Measure, rel: seq<Tuple>, s: Tuple): nat {
    if rel == [] then 0
    else ProbeOne(w, rel[..|rel| - 1], s) + Weight(w, rel[|rel| - 1], s)
  }

  /** The specification: the join of `R` and `S` by two nested loops. */
  function NestedLoop(w: Measure, R: seq<Tuple>, S: seq<Tuple>): nat {
    if S == [] then 0
    else NestedLoop(w, R, S[..|S| - 1]) + ProbeOne(w, R, S[|S| - 1])
  }

  /** The tuples of `rel` that hash to cluster `p`, in order. */
  function Sel(rel: seq<Tuple>, r: Radix, p: nat): seq<Tuple> {
    if rel == [] then []
    else
      var last := rel[|rel| - 1];
      Sel(rel[..|rel| - 1], r, p) + (if Hash(r, last.key) == p then [last] else [])
  }

  function Flatten(parts: seq<seq<Tuple>>): seq<Tuple> {
    if parts == [] then [] else Flatten(parts[..|parts| - 1]) + parts[|parts| - 1]
  }

  // ----- growing a relation by one tuple -----

  lemma Snoc<T>(s: seq<T>, i: nat)
    requires i < |s|
    ensures s[..i + 1] == s[..i] + [s[i]]
    ensures s[..i + 1][..i] == s[..i]
  {
  }

  lemma ProbeSnoc(w: Measure, rel: seq<Tuple>, x: Tuple, s: Tuple)
    ensures ProbeOne(w, rel + [x], s) == ProbeOne(w, rel, s) + Weight(w, x, s)
  {
    assert (rel + [x])[..|rel|] == rel;
  }

  lemma JoinSnoc(w: Measure, R: seq<Tuple>, S: seq<Tuple>, s: Tuple)
    ensures NestedLoop(w, R, S + [s]) == NestedLoop(w, R, S) + ProbeOne(w, R, s)
  {
    assert (S + [s])[..|S|] == S;
  }

  lemma SelSnoc(rel: seq<Tuple>, x: Tuple, r: Radix, p: nat)
    ensures Sel(rel + [x], r, p) == Sel(rel, r, p) + (if Hash(r, x.key) == p then [x] else [])
  {
    assert (rel + [x])[..|rel|] == rel;
  }

  lemma FlattenSnoc(parts: seq<seq<Tuple>>, x: seq<Tuple>)
    ensures Flatten(parts + [x]) == Flatten(parts) + x
  {
    assert (parts + [x])[..|parts|] == parts;
  }

  // ----- concatenation -----

  lemma {:induction false} ProbeConcat(w: Measure, a: seq<Tuple>, b: seq<Tuple>, s: Tuple)
    ensures ProbeOne(w, a + b, s) == ProbeOne(w, a, s) + ProbeOne(w, b, s)
  {
    if b == [] {
      assert a + b == a;
    } else {
      var b', x := b[..|b| - 1], b[|b| - 1];
      assert a + b == (a + b') + [x];
      ProbeConcat(w, a, b', s);
      ProbeSnoc(w, a + b', x, s);
    }
  }

  lemma {:induction false} JoinConcat(w: Measure, R: seq<Tuple>, a: seq<Tuple>, b: seq<Tuple>)
    ensures NestedLoop(w, R, a + b) == NestedLoop(w, R, a) + NestedLoop(w, R, b)
  {
    if b == [] {
      assert a + b == a;
    } else {
      var b', x := b[..|b| - 1], b[|b| - 1];
      assert a + b == (a + b') + [x];
      JoinConcat(w, R, a, b');
      JoinSnoc(w, R, a + b', x);
    }
  }

  lemma {:induction false} SelConcat(a: seq<Tuple>, b: seq<Tuple>, r: Radix, p: nat)
    ensures Sel(a + b, r, p) == Sel(a, r, p) + Sel(b, r, p)
  {
    if b == [] {
      assert a + b == a;
    } else {
      var b', x := b[..|b| - 1], b[|b| - 1];
      assert a + b == (a + b') + [x];
      SelConcat(a, b', r, p);
      SelSnoc(a + b', x, r, p);
    }
  }

  lemma {:induction false} JoinEmpty(w: Measure, R: seq<Tuple>, S: seq<Tuple>)
    requires R == [] || S == []
    ensures NestedLoop(w, R, S) == 0
  {
    if S != [] {
      JoinEmpty(w, R, S[..|S| - 1]);
    }
  }

  // ----- parts that grow one tuple at a time -----

  lemma {:induction false} FlattenGrows(parts: seq<seq<Tuple>>, w: nat, x: Tuple)
    requires w < |parts|
    ensures multiset(Flatten(parts[w := parts[w] + [x]])) == multiset(Flatten(parts)) + multiset{x}
  {
    var n := |parts| - 1;
    var parts' := parts[w := parts[w] + [x]];
    if w == n {
      assert parts'[..n] == parts[..n];
      assert Flatten(parts') == Flatten(parts) + [x];
    } else {
      assert parts'[..n] == parts[..n][w := parts[w] + [x]];
      FlattenGrows(parts[..n], w, x);
    }
  }

  lemma {:induction false} FlattenConcat(a: seq<seq<Tuple>>, b: seq<seq<Tuple>>)
    ensures Flatten(a + b) == Flatten(a) + Flatten(b)
  {
    if b == [] {
      assert a + b == a;
    } else {
      var n := |b| - 1;
      assert (a + b)[..|a + b| - 1] == a + b[..n] && (a + b)[|a + b| - 1] == b[n];
      FlattenConcat(a, b[..n]);
      assert Flatten(a + b) == Flatten(a + b[..n]) + b[n];
      ConcatAssociates(Flatten(a), Flatten(b[..n]), b[n]);
    }
  }

  lemma ConcatAssociates(a: seq<Tuple>, b: seq<Tuple>, c: seq<Tuple>)
    ensures (a + b) + c == a + (b + c)
  {
  }

  lemma {:induction false} FlattenLength(parts: seq<seq<Tuple>>, whole: seq<seq<Tuple>>, w: nat)
    requires |parts| == |whole| && forall v: nat :: v < |parts| ==> |parts[v]| <= |whole[v]|
    ensures |Flatten(parts)| <= |Flatten(whole)|
    ensures w < |parts| && |parts[w]| < |whole[w]| ==> |Flatten(parts)| < |Flatten(whole)|
  {
    if parts != [] {
      var n := |parts| - 1;
      FlattenLength(parts[..n], whole[..n], w);
    }
  }

  lemma {:induction false} FlattenNothing(parts: seq<seq<Tuple>>)
    requires forall v: nat :: v < |parts| ==> parts[v] == []
    ensures Flatten(parts) == []
  {
    if parts != [] {
      FlattenNothing(parts[..|parts| - 1]);
    }
  }

  // ----- order does not matter -----

  lemma {:induction false} ProbePermutation(w: Measure, a: seq<Tuple>, b: seq<Tuple>, s: Tuple)
    requires multiset(a) == multiset(b)
    ensures ProbeOne(w, a, s) == ProbeOne(w, b, s)
  {
    if a == [] {
      assert |b| == |multiset(b)| == 0;
    } else {
      var a', x := a[..|a| - 1], a[|a| - 1];
      var u, v := RemoveOne(a', x, a, b);
      ProbePermutation(w, a', u + v, s);
      ProbeConcat(w, u, v, s);
      ProbeConcat(w, u + [x], v, s);
      ProbeSnoc(w, u, x, s);
    }
  }

  lemma RemoveOne(a': seq<Tuple>, x: Tuple, a: seq<Tuple>, b: seq<Tuple>) returns (u: seq<Tuple>, v: seq<Tuple>)
    requires multiset(a) == multiset(b) && a == a' + [x]
    ensures b == u + [x] + v && multiset(a') == multiset(u + v)
  {
    assert x in multiset(a);
    var i :| 0 <= i < |b| && b[i] == x;
    u, v := b[..i], b[i + 1..];
    assert b == u + [x] + v;
    assert multiset(b) == multiset(u) + multiset{x} + multiset(v);
    assert multiset(a) == multiset(a') + multiset{x};
    forall t: Tuple
      ensures multiset(a')[t] == multiset(u + v)[t]
    {
      assert multiset(a)[t] == multiset(a')[t] + multiset{x}[t];
      assert multiset(b)[t] == multiset(u)[t] + multiset{x}[t] + multiset(v)[t];
    }
  }

  // ----- hashing -----

  /** Equal keys hash alike, so probing the cluster of a tuple is probing the relation, and probing
      any other cluster finds nothing. */
  lemma {:induction false} ProbeSel(w: Measure, R: seq<Tuple>, r: Radix, p: nat, s: Tuple)
    ensures ProbeOne(w, Sel(R, r, p), s) == if Hash(r, s.key) == p then ProbeOne(w, R, s) else 0
  {
    if R != [] {
      var R', x := R[..|R| - 1], R[|R| - 1];
      ProbeSel(w, R', r, p, s);
      if Hash(r, x.key) == p {
        ProbeSnoc(w, Sel(R', r, p), x, s);
      } else {
        assert Sel(R, r, p) == Sel(R', r, p);
      }
    }
  }

  lemma {:induction false} SelMember(R: seq<Tuple>, r: Radix, p: nat, i: nat)
    requires i < |Sel(R, r, p)|
    ensures Hash(r, Sel(R, r, p)[i].key) == p
  {
    if i < |Sel(R[..|R| - 1], r, p)| {
      SelMember(R[..|R| - 1], r, p, i);
    }
  }

  /** A selection takes each tuple as often as the relation has it, or not at all. */
  lemma {:induction false} SelCount(R: seq<Tuple>, r: Radix, p: nat, x: Tuple)
    ensures multiset(Sel(R, r, p))[x] == if Hash(r, x.key) == p then multiset(R)[x] else 0
  {
    if R != [] {
      var R', last := R[..|R| - 1], R[|R| - 1];
      SelCount(R', r, p, x);
      assert R == R' + [last];
    }
  }

  // ----- cutting a join into clusters -----

  function SumTo(f: nat -> nat, n: nat): nat {
    if n == 0 then 0 else SumTo(f, n - 1) + f(n - 1)
  }

  /** Two sums that differ in one term. */
  lemma {:induction false} SumToOneMore(f: nat -> nat, g: nat -> nat, k: nat, v: nat, n: nat)
    requires forall p: nat :: p < n ==> f(p) == g(p) + (if p == k then v else 0)
    ensures SumTo(f, n) == SumTo(g, n) + (if k < n then v else 0)
  {
    if n > 0 {
      SumToOneMore(f, g, k, v, n - 1);
    }
  }

  lemma {:induction false} SumToSame(f: nat -> nat, g: nat -> nat, n: nat)
    requires forall p: nat :: p < n ==> f(p) == g(p)
    ensures SumTo(f, n) == SumTo(g, n)
  {
    if n > 0 {
      SumToSame(f, g, n - 1);
    }
  }

  lemma {:induction false} SumToZero(f: nat -> nat, n: nat)
    requires forall p: nat :: p < n ==> f(p) == 0
    ensures SumTo(f, n) == 0
  {
    if n > 0 {
      SumToZero(f, n - 1);
    }
  }

  /** Two sums, one smaller in one term. */
  lemma {:induction false} SumToDrops(f: nat -> nat, g: nat -> nat, k: nat, n: nat)
    requires forall p: nat :: p < n && p != k ==> g(p) == f(p)
    requires k < n ==> g(k) < f(k)
    ensures SumTo(g, n) <= SumTo(f, n) && (k < n ==> SumTo(g, n) < SumTo(f, n))
  {
    if n > 0 {
      SumToDrops(f, g, k, n - 1);
    }
  }

  lemma {:induction false} SumToAtMost(f: nat -> nat, k: nat, n: nat)
    requires forall p: nat :: p < n ==> f(p) <= k
    ensures SumTo(f, n) <= Times(n, k)
  {
    if n > 0 {
      SumToAtMost(f, k, n - 1);
    }
  }

  function ClusterJoin(w: Measure, R: seq<Tuple>, S: seq<Tuple>, r: Radix): nat -> nat {
    (p: nat) => NestedLoop(w, Sel(R, r, p), Sel(S, r, p))
  }

  lemma ClusterJoinSnoc(w: Measure, R: seq<Tuple>, S: seq<Tuple>, s: Tuple, r: Radix, p: nat)
    ensures ClusterJoin(w, R, S + [s], r)(p)
         == ClusterJoin(w, R, S, r)(p) + (if p == Hash(r, s.key) then ProbeOne(w, R, s) else 0)
  {
    SelSnoc(S, s, r, p);
    ProbeSel(w, R, r, p, s);
    if Hash(r, s.key) == p {
      JoinSnoc(w, Sel(R, r, p), Sel(S, r, p), s);
    } else {
      assert Sel(S + [s], r, p) == Sel(S, r, p);
    }
  }

  /** Partitioning both sides alike loses no pair and counts none twice. */
  lemma {:induction false} JoinByClusters(w: Measure, R: seq<Tuple>, S: seq<Tuple>, r: Radix)
    ensures SumTo(ClusterJoin(w, R, S, r), r.fanout) == NestedLoop(w, R, S)
  {
    if S == [] {
      SumToZero(ClusterJoin(w, R, S, r), r.fanout);
    } else {
      var S', s := S[..|S| - 1], S[|S| - 1];
      assert S == S' + [s];
      JoinByClusters(w, R, S', r);
      forall p: nat {
        ClusterJoinSnoc(w, R, S', s, r, p);
      }
      SumToOneMore(ClusterJoin(w, R, S, r), ClusterJoin(w, R, S', r), Hash(r, s.key), ProbeOne(w, R, s), r.fanout);
    }
  }

  /** The asymmetric form: the clusters of `R`, each joined with the whole of `S`. */
  function BuildSideJoin(w: Measure, R: seq<Tuple>, S: seq<Tuple>, r: Radix): nat -> nat {
    (p: nat) => NestedLoop(w, Sel(R, r, p), S)
  }

  lemma BuildSideJoinSnoc(w: Measure, R: seq<Tuple>, S: seq<Tuple>, s: Tuple, r: Radix, p: nat)
    ensures BuildSideJoin(w, R, S + [s], r)(p)
         == BuildSideJoin(w, R, S, r)(p) + (if p == Hash(r, s.key) then ProbeOne(w, R, s) else 0)
  {
    ProbeSel(w, R, r, p, s);
    JoinSnoc(w, Sel(R, r, p), S, s);
  }

  /** Partitioning the build side alone is enough. */
  lemma {:induction false} JoinByBuildClusters(w: Measure, R: seq<Tuple>, S: seq<Tuple>, r: Radix)
    ensures SumTo(BuildSideJoin(w, R, S, r), r.fanout) == NestedLoop(w, R, S)
  {
    if S == [] {
      SumToZero(BuildSideJoin(w, R, S, r), r.fanout);
    } else {
      var S', s := S[..|S| - 1], S[|S| - 1];
      assert S == S' + [s];
      JoinByBuildClusters(w, R, S', r);
      forall p: nat {
        BuildSideJoinSnoc(w, R, S', s, r, p);
      }
      SumToOneMore(BuildSideJoin(w, R, S, r), BuildSideJoin(w, R, S', r), Hash(r, s.key), ProbeOne(w, R, s), r.fanout);
    }
  }
}
