/** The shared build of a linear-probing table behaves like inserting the tuples one after another, in
    an order that mixes the threads but keeps the order of each. */
module InsertionOrder {
  import opened Bits
  import opened Relations
  import opened Accumulators
  import opened Runs
  import opened Probing
  import opened FirstMatches
  import C = ConcurrentProbing
  import L = LatchedProbing

  /** What thread `w` has put into an order; `who[k]` is the thread of its `k`-th tuple. */
  ghost function OfThread(order: seq<Tuple>, who: seq<nat>, w: nat): seq<Tuple>
    requires |who| == |order|
  {
    if order == [] then []
    else
      var n := |order| - 1;
      OfThread(order[..n], who[..n], w) + (if who[n] == w then [order[n]] else [])
  }

  lemma OfThreadSnoc(order: seq<Tuple>, who: seq<nat>, x: Tuple, v: nat, w: nat)
    requires |who| == |order|
    ensures OfThread(order + [x], who + [v], w) == OfThread(order, who, w) + (if v == w then [x] else [])
  {
    assert (order + [x])[..|order|] == order && (who + [v])[..|who|] == who;
  }

  /** A slot in use carries the hash value of its tuple, and 1. */
  ghost predicate Marked(hash: seq<nat>, table: seq<Slot>, r: Radix) {
    |hash| == |table| && forall q: nat :: q < |table| && table[q].Full? ==> hash[q] == Hash(r, table[q].tuple.key) + 1
  }

  /** The claims so far, in the order in which they were made. */
  ghost predicate Ordered(c: C.Config, s: C.State, who: seq<nat>, order: seq<Tuple>) {
    && C.Shape(c, s) && |who| == |order| && Marked(s.hash, s.log, c.r)
    && InOrder(s.log, c.r, order) && multiset(Entries(s.log)) == multiset(order)
    && forall w: nat :: w < |c.inputs| ==> OfThread(order, who, w) == C.Taken(c.inputs[w], s.ts[w])
  }

  lemma InitIsOrdered(c: C.Config, s: C.State)
    requires C.Init(c, s)
    ensures Ordered(c, s, [], [])
  {
    NoEntries(s.log);
    EmptyInOrder(s.log, c.r);
  }

  lemma ClaimFills(c: C.Config, s: C.State, s': C.State, v: nat) returns (q: nat, x: Tuple)
    requires C.Enough(c) && C.Inv(c, s) && C.Claim(c, s, s', v)
    ensures q < |s.log| == c.r.fanout && s.log[q].Empty? && s'.log == s.log[q := Full(x)] && Valid(s'.log, c.r)
    ensures |s.hash| == |s.log| && s'.hash == s.hash[q := Hash(c.r, x.key) + 1]
    ensures s.ts[v].i < |c.inputs[v]| && x == c.inputs[v][s.ts[v].i]
  {
    q, x := At(C.Home(c, v, s.ts[v].i), s.ts[v].d, c.r.fanout), c.inputs[v][s.ts[v].i];
    assert C.SlotOk(s, q);
    C.ClaimKeepsInv(c, s, s', v);
  }

  lemma ClaimKeepsThreads(c: C.Config, s: C.State, s': C.State, v: nat, who: seq<nat>, order: seq<Tuple>, w: nat)
    requires C.Claim(c, s, s', v) && |who| == |order| && w < |c.inputs|
    requires OfThread(order, who, w) == C.Taken(c.inputs[w], s.ts[w])
    ensures OfThread(order + [c.inputs[v][s.ts[v].i]], who + [v], w) == C.Taken(c.inputs[w], s'.ts[w])
  {
    Snoc(c.inputs[v], s.ts[v].i);
    OfThreadSnoc(order, who, c.inputs[v][s.ts[v].i], v, w);
  }

  lemma ClaimKeepsOrdered(c: C.Config, s: C.State, s': C.State, v: nat, who: seq<nat>, order: seq<Tuple>)
    requires C.Enough(c) && C.Inv(c, s) && C.Claim(c, s, s', v) && Ordered(c, s, who, order)
    ensures Ordered(c, s', who + [v], order + [c.inputs[v][s.ts[v].i]])
  {
    var q, x := ClaimFills(c, s, s', v);
    EntriesFill(s.log, q, x);
    FillKeepsOrder(s.log, c.r, order, x, q);
    forall w: nat | w < |c.inputs|
      ensures OfThread(order + [x], who + [v], w) == C.Taken(c.inputs[w], s'.ts[w])
    {
      ClaimKeepsThreads(c, s, s', v, who, order, w);
    }
  }

  lemma OtherStep(c: C.Config, s: C.State, s': C.State, v: nat)
    requires C.Step(c, s, s', v) && !C.Claim(c, s, s', v)
    ensures C.Shape(c, s') && s'.log == s.log && s'.hash == s.hash
    ensures forall w: nat :: w < |s.ts| ==> C.Claimed(s'.ts[w]) == C.Claimed(s.ts[w])
  {
  }

  lemma StepKeepsOrdered(c: C.Config, s: C.State, s': C.State, v: nat, who: seq<nat>, order: seq<Tuple>)
    returns (who': seq<nat>, order': seq<Tuple>)
    requires C.Enough(c) && C.Inv(c, s) && C.Step(c, s, s', v) && Ordered(c, s, who, order)
    ensures Ordered(c, s', who', order')
  {
    if C.Claim(c, s, s', v) {
      ClaimKeepsOrdered(c, s, s', v, who, order);
      who', order' := who + [v], order + [c.inputs[v][s.ts[v].i]];
    } else {
      OtherStep(c, s, s', v);
      who', order' := who, order;
    }
  }

  // ----- along every run -----

  /** There is such an order. */
  ghost predicate SomeOrder(c: C.Config, s: C.State) {
    exists who: seq<nat>, order: seq<Tuple> :: Ordered(c, s, who, order)
  }

  lemma NextKeepsOrder(c: C.Config, s: C.State, s': C.State)
    requires C.Enough(c) && C.Inv(c, s) && C.Next(c, s, s') && SomeOrder(c, s)
    ensures SomeOrder(c, s')
  {
    var v: nat :| C.Step(c, s, s', v);
    var who, order :| Ordered(c, s, who, order);
    var who', order' := StepKeepsOrdered(c, s, s', v, who, order);
  }

  lemma LatchedNextKeepsOrder(c: C.Config, s: L.State, s': L.State)
    requires C.Enough(c) && L.Both(c, s) && L.Next(c, s, s') && SomeOrder(c, L.Abstract(c, s))
    ensures L.Both(c, s') && SomeOrder(c, L.Abstract(c, s'))
  {
    L.NextKeepsBoth(c, s, s');
    var v: nat :| L.Step(c, s, s', v);
    L.StepRefines(c, s, s', v);
    if L.Abstract(c, s') != L.Abstract(c, s) {
      NextKeepsOrder(c, L.Abstract(c, s), L.Abstract(c, s'));
    }
  }

  lemma RunIsOrdered(c: C.Config, tr: seq<C.State>, i: nat)
    requires C.Enough(c) && C.Run(c, tr) && i < |tr|
    ensures C.Inv(c, tr[i]) && SomeOrder(c, tr[i])
  {
    forall s | C.Init(c, s)
      ensures C.Inv(c, s) && SomeOrder(c, s)
    {
      C.InitHasInv(c, s);
      InitIsOrdered(c, s);
    }
    forall s, s' | C.Inv(c, s) && SomeOrder(c, s) && C.Next(c, s, s')
      ensures C.Inv(c, s') && SomeOrder(c, s')
    {
      C.NextKeepsInv(c, s, s');
      NextKeepsOrder(c, s, s');
    }
    Invariant(tr, (s: C.State) => C.Init(c, s), (s: C.State, s': C.State) => C.Next(c, s, s'),
              (s: C.State) => C.Inv(c, s) && SomeOrder(c, s), i);
  }

  ghost predicate LatchedInv(c: C.Config, s: L.State) { L.Both(c, s) && SomeOrder(c, L.Abstract(c, s)) }

  lemma LatchedRunIsOrdered(c: C.Config, tr: seq<L.State>, i: nat)
    requires C.Enough(c) && L.Run(c, tr) && i < |tr|
    ensures LatchedInv(c, tr[i])
  {
    forall s | L.Init(c, s)
      ensures LatchedInv(c, s)
    {
      L.InitHasBoth(c, s);
      InitIsOrdered(c, L.Abstract(c, s));
    }
    forall s, s' | LatchedInv(c, s) && L.Next(c, s, s')
      ensures LatchedInv(c, s')
    {
      LatchedNextKeepsOrder(c, s, s');
    }
    Invariant(tr, (s: L.State) => L.Init(c, s), (s: L.State, s': L.State) => L.Next(c, s, s'), (s: L.State) => LatchedInv(c, s), i);
  }

  /** A table that was filled in such an order. */
  ghost predicate FilledInOrder(hash: seq<nat>, tup: seq<Tuple>, c: C.Config, who: seq<nat>, order: seq<Tuple>) {
    && C.Holds(hash, tup, c.r, order) && Marked(hash, C.TableOf(hash, tup), c.r) && InOrder(C.TableOf(hash, tup), c.r, order)
    && |who| == |order| && forall w: nat :: w < |c.inputs| ==> OfThread(order, who, w) == c.inputs[w]
  }

  lemma EndIsOrdered(c: C.Config, s: C.State, who: seq<nat>, order: seq<Tuple>)
    requires C.Inv(c, s) && C.AllDone(c, s) && Ordered(c, s, who, order)
    ensures FilledInOrder(s.hash, s.tup, c, who, order)
  {
    C.DoneTable(c, s);
    C.DoneThreads(c, s);
  }

  /** Whatever the schedule, lookups in the finished table come to what they would come to if one thread
      had inserted all tuples, in some order that keeps the order of every thread. */
  lemma BuildIsSequential(c: C.Config, tr: seq<C.State>) returns (who: seq<nat>, order: seq<Tuple>)
    requires C.Enough(c) && C.Run(c, tr) && C.AllDone(c, tr[|tr| - 1])
    ensures FilledInOrder(tr[|tr| - 1].hash, tr[|tr| - 1].tup, c, who, order)
  {
    RunIsOrdered(c, tr, |tr| - 1);
    who, order :| Ordered(c, tr[|tr| - 1], who, order);
    EndIsOrdered(c, tr[|tr| - 1], who, order);
  }

  /** So with a latch in every slot. */
  lemma LatchedBuildIsSequential(c: C.Config, tr: seq<L.State>) returns (who: seq<nat>, order: seq<Tuple>)
    requires C.Enough(c) && L.Run(c, tr) && L.AllDone(c, tr[|tr| - 1])
    ensures FilledInOrder(tr[|tr| - 1].hash, tr[|tr| - 1].tup, c, who, order)
  {
    LatchedRunIsOrdered(c, tr, |tr| - 1);
    L.DoneIsDone(c, tr[|tr| - 1]);
    who, order :| Ordered(c, L.Abstract(c, tr[|tr| - 1]), who, order);
    EndIsOrdered(c, L.Abstract(c, tr[|tr| - 1]), who, order);
  }
}
